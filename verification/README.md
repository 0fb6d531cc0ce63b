# The LFS object lifecycle, verified

cargohold is a Git LFS server: a batch API that registers objects and offers transfers, a PUT that
stores content, a verify call, downloads, a GitHub login, and two read-through caches in front of
PostgreSQL. This project models how those requests use their four stores (the `lfs_objects` table,
the access-policy table, one flat Redis key space with expiry, and the bucket) and proves what holds
over every run.

The stores are shared, there is no transaction anywhere, cache errors are dropped, and any store call
may fail, or take effect and be reported as failed. The model therefore has three views of the same
code:

- **Methods as they are written** (`UseCases.dfy`, `Allowlist.dfy`, `Jwks.dfy`, `Session.dfy`,
  `OAuthUseCase.dfy`, on the stores of `Redis.dfy` and module `Backend`): classes that change the
  stores call by call. Each is proved equal to a function of the old stores.
- **Operations** (`Service.dfy`, `Batch.dfy`, `Outcomes.dfy`, `Routes.dfy`, `Journey.dfy`, `Retry.dfy`,
  `Convergence.dfy`): those functions. What each answers and leaves is stated on the stores and on the
  calls that fail; a client that follows the URLs it is given gets its content through; batches are
  folds, so prefix effects, idempotence and retry convergence are proved here.
- **Interleavings** (`Lifecycle.dfy`, `LifecycleTheorems.dfy`, `Ownership.dfy`, `Schedules.dfy`,
  `Overtaken.dfy`, `Durability.dfy`, `Staleness.dfy`, `CacheCalls.dfy`, `Remembered.dfy`, `OAuth.dfy`,
  `OAuthTheorems.dfy`): requests cut at every store call, in any order, with faults, evictions and
  writes of other components. Safety is proved by invariants over all runs. `Refinement.dfy`,
  `Sequences.dfy` and module `OAuthOperations` prove that a request run alone is the operation, and
  that batches and sequences of requests are runs.

A `Fault` is `Fine`, `Lost` (failed, no effect) or `Unacked` (took effect, reported as failed).

## What turned out not to hold

Eight properties one could expect are false of the code. Each has a lemma with a concrete run or
input, and a lemma that says exactly when the property does hold.

- *Every uploaded object has its content.* Verify compares sizes with the record and never looks at
  the bucket (`VerifyCanBeBlind`, `BackedExactlyWhenVerifyIsNotBlind`).
- *An object's repository never changes.* The policy save is an upsert and nothing spans the policy
  read and the policy write (`ConcurrentRegistrationsCanOverwrite`, `OwnershipStableExactlyWhen`).
- *Only the owner replaces an object's content.* A PUT that read the missing policy before the owner's
  was saved still stores (`OvertakenPutReplacesContent`, `OwnersStoreExactlyWhen`).
- *Retrying a broken batch ends where one clean attempt ends.* Not when a batch gives one oid two
  sizes: a failed lookup decides which of them is registered. And not when the repository name does
  not fit its column: then saves are refused, or the name is cut off and its owner is denied
  (`TwoSizesDiverge`, `TwoObjectsDiverge`, `RetriesConvergeExactlyWhen`; with the answers,
  `RetriesConvergeInFullExactlyWhen`).
- *Repeating a batch gives the same answer.* Not when the name was cut off
  (`CutOffNamesAreDenied`, `AnsweredAlikeExactlyWhen`).
- *Allowlist answers are never older than the time to live.* A time to live that is not positive means
  entries that never expire, and a name that is cut off is cached although it is not in the table
  (`ZeroTtlNeverForgets`, `CutOffNamesAreAllowed`, `StalenessIsBoundedExactlyWhen`).
- *A login names its own redirect URI.* All requests set one field of one provider object
  (`TwoURIsCanMix`, `TwoStartsCanMix`, `URIsStayOwnExactlyWhenOneURI`).
- *The URL of an action leads back to its object.* The names go into the URL as they are: not with a
  question mark, a hash or a percent sign in them (`HashesCutTheRoute`,
  `ActionLeadsBackExactlyWhenPlain`).

One difference is smaller: a session with all-false permissions comes back without permissions, which
changes the permission check only for operation strings the protocol does not have
(`SessionKeepsDecisionExactlyWhen`).

## Checking it

`dafny verify dfyconfig.toml`, with Dafny 4.11.

## Model

| member | source | states |
|---|---|---|
| LifecycleTheorems.CacheNeverAhead | internal/infrastructure/caching_lfs_object_repository.go:32-114 | In every state any interleaving of batch upload, PUT, verify and download store calls can reach, with failing calls and vanishing entries, each cached record and each copy in flight agrees with its row on oid, size, hash algorithm and storage key, and says `uploaded` only if the row does |
| LifecycleTheorems.RecordsAreMonotone | internal/infrastructure/postgres/dao.go:69-113 | Over every run a row is never removed, its size, algorithm and storage key never change and `uploaded` never goes back, although updates write back whole, possibly stale copies |
| LifecycleTheorems.OutcomesAreSound | internal/usecase/proxy_download_usecase.go:48-68 | Whatever the cache holds and the others do, answers are the truth and stay so: a download batch offers or has an error, and an object is offered or streamed only if its row is marked, with the registered size, which is the stored length, announced; a PUT or verify that reports success leaves the row marked; a verify succeeds only for the registered size and reports a mismatch only for another; a registration goes ahead only with a row, has nothing to send only for a marked row of that size and is a conflict only for a marked row of another |
| LifecycleTheorems.ExistenceMatchesTable | internal/infrastructure/caching_lfs_object_repository.go:86-95 | In every reachable state ExistsByOID, when it answers, says what the table says |
| LifecycleTheorems.PutsDoNotCollide | internal/usecase/proxy_upload_usecase.go:56-59 | Every reachable row holds the key generated from its own oid and algorithm, and a store call made for one object leaves the content of every other object as it was |
| LifecycleTheorems.ForeignKeyNeverRejects | internal/usecase/batch_upload_usecase.go:69-74 | A policy save fails exactly on a store fault or a repository name its column refuses: the row it refers to is always there |
| LifecycleInvariants.RunsKeepInvariant | internal/usecase/verify_usecase.go:50-66 | The invariant behind these results is kept by every run of every interleaving |
| LifecycleInvariants.StepKeepsInvariant | internal/usecase/upload_usecase.go:33-78 | One store call of any request, one arrival, one eviction or one write of another key family keeps the invariant and only moves rows and blobs forward |
| StoredContent.BackedExactlyWhenVerifyIsNotBlind | internal/usecase/verify_usecase.go:50-66 | Verify does not look at storage: over a whole run every uploaded object has its content if and only if no verify reaches the table before the content is in the bucket |
| StoredContent.StoredContentMatchesRecord | internal/usecase/proxy_upload_usecase.go:56-64 | In every run where the verify of an object follows a completed PUT of it, each uploaded row has a blob under its storage key of exactly the recorded size |
| Refinement.VerifyCanBeBlind | internal/usecase/verify_usecase.go:33-73 | Registering and then verifying any object, without a PUT, marks it uploaded with nothing in the bucket |
| Schedules.OwnershipStableExactlyWhen | internal/usecase/batch_upload_usecase.go:60-74 | The policy save is an upsert and nothing spans the policy read and it: in a run from empty stores no object ever changes hands if and only if, between the policy read and the policy write of each registration, nobody writes another name into that policy |
| Provenance.StreamedContentWasPut | internal/usecase/proxy_upload_usecase.go:34-67 | What a download streams is the first bytes, as many as registered, of the body of a PUT of the same object that was let in, for the owner or before there was one, and stored afterwards |
| Provenance.OwnersStoreExactlyWhen | internal/usecase/proxy_upload_usecase.go:40-59 | A PUT is let in when there is no policy. In every run, only owners replace the content of owned objects if and only if the last policy write, if any, between the policy read of a PUT and its store is of the name of its own repository; that no other name is written there at all is enough, and where owners never change it is needed too |
| OvertakenPut.OvertakenPutReplacesContent | internal/domain/access_authorization_service_impl.go:35-57 | For any object, owner, other repository and body, a run in which a PUT of the other repository, let in before the owner's policy is saved, replaces the content afterwards |
| Authorization.AuthorizationDecision | internal/domain/access_authorization_service_impl.go:18-57 | A repository may touch an object with a policy exactly when the policy names it, and an object without one exactly to upload it; CanAccess agrees |
| Ownership.StepKeepsOwners | internal/infrastructure/postgres/access_policy_dao.go:60-75 | A step changes the policy of an object of another repository exactly when it is an effective save of another name; no other step changes a policy |
| Schedules.DownloadsServeTheOwner | internal/usecase/proxy_download_usecase.go:34-69 | In a run in which no registration is disturbed, every download that was let in, at any moment of it, was made for the repository that owns the object then and at the end |
| Schedules.SerialisedIsUndisturbed | internal/usecase/batch_upload_usecase.go:60-74 | Registrations of an object that run one at a time are not disturbed |
| Schedules.FirstOwnerForGood | internal/usecase/batch_upload_usecase.go:60-74 | So when registrations of an object run one at a time, its repository never changes once set |
| Schedules.DownloadsServeTheFirstOwner | internal/usecase/proxy_download_usecase.go:34-69 | And every download that was let in was made for the repository that owns the object from its first registration to the end |
| Ownership.ConcurrentRegistrationsCanOverwrite | internal/usecase/batch_upload_usecase.go:60-74 | Two registrations that both read the missing policy before either writes it: the first becomes the owner and is then replaced |
| Durability.UploadServes | internal/usecase/proxy_upload_usecase.go:34-67 | From any coherent stores a PUT that meets no fault succeeds if and only if the object is registered, the body is at least as long as its size and its policy, if any, names the repository; the owner's object is then marked in the table, nowhere cached as unmarked, and has the body, cut at that size, as its content |
| Durability.ServedIsDownloaded | internal/usecase/proxy_download_usecase.go:34-69 | Such an object is streamed to its owner, with its content and its length |
| Durability.ServedIsOffered | internal/usecase/download_usecase.go:30-55 | ... and offered to its owner in a download batch |
| Durability.UploadedStaysAvailable | internal/usecase/proxy_download_usecase.go:34-69 | What was uploaded can be downloaded: after an owner's PUT without faults, and any run with any faults, evictions and foreign writes in which no PUT of the object arrives and no request under way carries an older copy of its record, is registering it as new or is putting it, a download batch without faults offers the object and a download returns that body, cut at the registered size |
| Outcomes.RegistrationOutcome | internal/usecase/upload_usecase.go:33-78 | Registering one object without faults, from any coherent stores: who is refused, what is a conflict (409), which row and which policy are there afterwards, and that the answer is to send the content unless it is there |
| Outcomes.RegistrationFailures | internal/usecase/upload_usecase.go:34-60 | Registering with any faults: a policy that cannot be read ends the batch, a failing lookup or insert is a 500 and no policy is written, an unacknowledged policy ends the batch after the row is there |
| Outcomes.ProxyUploadOutcome | internal/usecase/proxy_upload_usecase.go:34-67 | A PUT succeeds if and only if the policy, if any, names the repository, the object is registered, the body is long enough and the calls it needs succeed, which those on the cache are not; the error otherwise; and exactly what it leaves in the table and under the storage key, also when calls take effect and are reported as failed |
| Outcomes.VerifyOutcome | internal/usecase/verify_usecase.go:33-73 | A verify succeeds if and only if the lookup is answered, the size is the registered one and the update is acknowledged; each of its errors has its exact condition; and only a fitting verify marks the row and drops the batch key |
| Outcomes.OfferOutcome | internal/usecase/download_usecase.go:30-55 | A download batch answers exactly the repository the policy names; a failing lookup is a 500, and with a coherent cache the object is offered if and only if its row is marked and is a 404 if not |
| Outcomes.DownloadBatchOffers | internal/usecase/batch_download_usecase.go:30-70 | A download batch without faults is answered if and only if the repository owns all its objects, and then offers exactly the marked ones |
| Outcomes.ProxyDownloadOutcome | internal/usecase/proxy_download_usecase.go:34-69 | With a coherent cache a download succeeds if and only if the policy names the repository, the row is marked, the content is in the bucket and the calls it needs succeed; it streams that content with its length; the error otherwise |
| Outcomes.AuthorizationRefusal | internal/domain/access_authorization_service_impl.go:18-57 | Who is refused and with which error: denied when the policy names another or there is none to read, failed when the policy cannot be read |
| Outcomes.TurnsCheckAgain | internal/usecase/batch_upload_usecase.go:50-60 | The loops check each object again in the same order and stop there without an effect |
| Outcomes.ValidateNamesTheProblem | internal/usecase/batch_request.go:79-102 | A rejected request is rejected for the first of its operation, having no objects, its first object that is not well-formed (its oid before its size) and its hash algorithm |
| Outcomes.MissingRowsAreNotFound | internal/usecase/proxy_download_usecase.go:48-56 | An object with a policy and no row is not found, in every operation |
| Routes.ActionLeadsBackExactlyWhenPlain | internal/infrastructure/url/proxy_action_url_generator.go:25-28 | The URL of an action, split as the router splits it, names the owner, repository and oid it was made for, if and only if neither name contains a question mark, a hash or a percent sign; a slash at the end of the base URL is not doubled |
| Routes.HashesCutTheRoute | cmd/cargohold/main.go:225-230 | For a repository with a hash in its name the URL of every action leads elsewhere |
| Journey.AnswersLeadBack | internal/usecase/download_usecase.go:46-54 | Every action in every answer, with any faults: its URL leads back to the object, it carries the caller's Authorization header if and only if there was one, and it lives 15 minutes; and it is never one of the other operation |
| Journey.OfferedUploadIsTaken | internal/usecase/proxy_upload_usecase.go:34-67 | A PUT at the URL a registration hands out succeeds if and only if the column stores the repository's name as it is and the body has the registered size at least |
| Journey.TransferSucceeds | internal/usecase/batch_upload_usecase.go:34-80 | The whole way from coherent stores: register, PUT at the URL handed out, verify, ask, GET at the URL handed out; every step succeeds and the body comes back |
| Refinement.SmallStepsAreTheOperation | internal/usecase/upload_usecase.go:33-78 | For every request, stores and faults, the store calls run one by one give the stores and the outcome of the sequential operation |
| Refinement.OperationIsARun | internal/usecase/proxy_upload_usecase.go:34-67 | The uninterrupted operation is one of the interleavings of the service |
| Refinement.OperationsKeepInvariant | internal/usecase/verify_usecase.go:33-73 | Every sequential operation keeps the invariants, moves records only forward and reports the truth about them |
| Sequences.SequenceIsARun | internal/usecase/proxy_upload_usecase.go:34-67 | Any sequence of whole requests, with any faults, is a run of the interleaved service: same stores, same outcomes |
| Sequences.SequenceIsSerialised | internal/usecase/batch_upload_usecase.go:50-77 | In such a run registrations run one at a time |
| Sequences.SequencesKeepOwners | internal/usecase/batch_upload_usecase.go:60-74 | So when whole requests follow each other, no object ever changes hands, although the save is an upsert |
| Sequences.BatchIsASequence | internal/usecase/batch_upload_usecase.go:50-77 | An upload batch is the sequence of its registrations up to the first that fails, on the stores and on the answers |
| Sequences.BatchIsASerialisedRun | internal/usecase/batch_upload_usecase.go:34-80 | An upload batch is a run of the interleaved service, from any state, and one in which registrations run one at a time |
| Batch.UploadAllAppend | internal/usecase/batch_upload_usecase.go:44-79 | Running xs + ys is running xs and, if it succeeds, ys from there with the answers concatenated; if xs fails, ys has no effect |
| Batch.DownloadAllAppend | internal/usecase/batch_download_usecase.go:30-70 | The same for download batches |
| Batch.FailureKeepsPrefix | internal/usecase/batch_upload_usecase.go:50-77 | A failed batch failed at one object: the objects before it keep exactly the effects of running them alone |
| Batch.LaterObjectsHaveNoEffect | internal/usecase/batch_upload_usecase.go:50-77 | What follows the failing object has no effect and no say: any other tail gives the same stores and the same error |
| Batch.ValidateIsExact | internal/usecase/batch_request.go:79-102 | Validate accepts exactly the requests with a known operation, at least one object, well-formed oids and sizes and the one supported algorithm |
| Batch.ValidatedUploadsAreAnswered | internal/usecase/batch_upload_usecase.go:34-80 | A rejected request changes nothing; a validated upload aborts only on denied access or a failing store, and otherwise answers every object in order with its own oid and size, an error or a go-ahead, and never a download action |
| Batch.ValidatedDownloadsAreAnswered | internal/usecase/batch_download_usecase.go:30-70 | The same for download batches: an object is offered exactly when it has no error, and never an upload action |
| Batch.AnsweredInOrder | internal/infrastructure/s3/storage_key.go:49-64 | Once the objects are well-formed no oid, size, algorithm or storage-key check inside the loop can fail |
| Batch.BatchesKeepInvariant | internal/usecase/batch_upload_usecase.go:34-80 | Whole batches keep the invariants of the interleaved service |
| Retry.IdempotentUploadBatch | internal/usecase/batch_upload_usecase.go:34-80 | Without faults and with a coherent cache, the same batch again changes no row, policy or blob, duplicates and conflicting sizes included, and gives the same response or error unless the repository name was cut off by its column |
| Retry.AnsweredAlikeExactlyWhen | migrations/000001_initial_schema.sql:28-35 | The repositories whose repeated batches are always answered alike are exactly those whose name the 255-character column does not cut off |
| Retry.CutOffNamesAreDenied | internal/infrastructure/postgres/access_policy_dao.go:60-75 | With a name that is cut off the first batch succeeds and the second one is denied, for every object |
| Retry.RetriesConverge | internal/usecase/batch_upload_usecase.go:34-89 | Any number of attempts broken by any faults followed by a fault-free one ends with the rows and policies of a single fault-free attempt, for a batch with one size per oid and a name its column stores as it is |
| Convergence.RetriesConvergeExactlyWhen | internal/usecase/upload_usecase.go:33-78 | Retrying a batch converges, from every coherent state and after every sequence of broken attempts, if and only if the batch gives no oid two sizes and, unless it repeats a single object, the name is stored as it is |
| Convergence.TwoSizesDiverge | internal/usecase/batch_request.go:79-102 | For every batch with two sizes for one oid, which Validate accepts, a broken attempt after which the final size is not the one a clean attempt leaves |
| Convergence.TwoObjectsDiverge | migrations/000001_initial_schema.sql:31 | For every batch with two different objects and a name the column refuses or cuts off, a broken attempt after which the final tables are not those of a clean attempt |
| Convergence.OneObjectConverges | internal/usecase/batch_upload_usecase.go:60-74 | Repeating a single object converges whatever the column makes of the name |
| Convergence.RetriesConvergeExactlyWhenTheNameFits | migrations/000001_initial_schema.sql:28-35 | All batches with one size per oid converge exactly for the names the column stores as they are |
| Registration.TurnEffect | internal/usecase/upload_usecase.go:33-78 | With a coherent cache one registration depends on and changes only the row and the policy of its object, and stops at one of three points |
| RetryAnswers.RetriesAreAnsweredAlike | internal/usecase/batch_upload_usecase.go:34-89 | Unless the name is cut off, the attempt after any broken ones gives the answers of a single clean attempt, for every batch, even one whose tables do not converge |
| RetryAnswers.RepeatsAreAnsweredAlike | internal/domain/access_authorization_service_impl.go:35-57 | So does the attempt after broken ones for a batch that repeats one object, twice or more, under a name that is cut off: the clean attempt is itself refused at the second registration, unless every one is answered as a size conflict |
| RetryAnswers.SingleObjectIsDenied | internal/infrastructure/postgres/access_policy_dao.go:60-75 | A single object under a name that is cut off succeeds at first and is denied afterwards |
| RetryAnswers.RetriesConvergeInFullExactlyWhen | internal/usecase/upload_usecase.go:33-78 | Retrying ends with the tables and the answers of one clean attempt, from every coherent state and after every sequence of broken attempts, if and only if the batch is safe for its tables and is not a single object under a name that is cut off |
| CacheKeys.KeysInjective | internal/infrastructure/redis/cache_keys.go:64-91 | The six key functions are injective and their ranges are pairwise disjoint, over all strings |
| CacheKeys.FamiliesDoNotInterfere | internal/infrastructure/redis/cache_keys.go:13-37 | A write or a delete in one family leaves the view of every other family of the flat store unchanged |
| StorageKeys.StorageKeyInjective | internal/infrastructure/s3/storage_key.go:23-64 | Different accepted (oid, algorithm) pairs never share a storage key |
| StorageKeys.StorageKeyExactlyWhen | internal/infrastructure/s3/storage_key.go:23-64 | A key is made if and only if the algorithm is letters, digits and hyphens and the oid at least four hexadecimal digits, the algorithm being checked first; and the text of the key |
| StorageKeys.OIDsAreAccepted | internal/infrastructure/s3/storage_key.go:36-47 | Every oid the domain accepts is accepted by the key generator too |
| Domain.RepositoryRoundTrip | internal/domain/repository_identifier.go:15-36 | Parsing a full name gives an identifier if and only if the name is that identifier written out |
| Domain.RecordsReadBackExactlyWhen | internal/infrastructure/postgres/lfs_object_repository.go:50-70 | A stored record reads back if and only if its oid is 64 hexadecimal digits, its size is not negative, its algorithm is sha256 or none and it has a storage key; it is then the record that was stored |
| Domain.LFSObject.MarkAsUploaded | internal/domain/lfs_object.go:59-62 | Marking changes `uploaded` and nothing else |
| Backend.ObjectTable.FindByOID | internal/infrastructure/postgres/lfs_object_repository.go:21-31 | A row is found, missing, or refused because it does not reconstruct |
| Backend.ObjectTable.Save | internal/infrastructure/postgres/dao.go:69-86 | The insert: the primary key rejects an oid that is there |
| Backend.ObjectTable.Update | internal/infrastructure/postgres/dao.go:88-113 | The update overwrites one row, and reports an oid that is not there |
| Backend.PolicyTable.Save | internal/infrastructure/postgres/access_policy_dao.go:60-75 | The upsert: one row per oid, subject to the foreign key and to what the column makes of the name |
| Backend.Bucket.PutObject | internal/infrastructure/s3/client.go:76-97 | A put of a declared length: that many bytes of the body, or nothing and an error |
| Stores.TableWrites | internal/infrastructure/postgres/dao.go:69-113 | An insert is acknowledged exactly for a new key, an update exactly for one that is there, a policy exactly for an object with a row and a name the column takes; and none touches another key |
| Stores.ColumnCases | migrations/000001_initial_schema.sql:20-35 | A VARCHAR(255) column stores a name as it is exactly when it has no NUL and at most 255 characters, and cuts it off exactly when what is too much is spaces |
| Repository.CachingLFSObjectRepository.FindByOID | internal/infrastructure/caching_lfs_object_repository.go:32-64 | The read-through lookup, equal to Service.Find on the stores |
| Repository.CachingLFSObjectRepository.Save | internal/infrastructure/caching_lfs_object_repository.go:66-74 | Insert, then cache; a failing cache write is ignored |
| Repository.CachingLFSObjectRepository.Update | internal/infrastructure/caching_lfs_object_repository.go:76-84 | Update, then cache; a failing cache write is ignored |
| Repository.CachingLFSObjectRepository.ExistsByOID | internal/infrastructure/caching_lfs_object_repository.go:86-95 | A cached key answers yes without a look at the table |
| Repository.CachingLFSObjectRepository.CacheMetadata | internal/infrastructure/caching_lfs_object_repository.go:102-114 | What is written under the metadata key |
| UseCases.UploadUseCase.HandleUploadObject | internal/usecase/upload_usecase.go:33-78 | Register, reuse or reject one object: equal to the operation the theorems are about |
| UseCases.BatchUploadUseCase.HandleBatchUpload | internal/usecase/batch_upload_usecase.go:34-80 | The loop is the fold Batch.BatchUpload, on the stores and on the response |
| UseCases.BatchUploadUseCase.CreateAccessPolicy | internal/usecase/batch_upload_usecase.go:82-89 | The policy save |
| UseCases.BatchDownloadUseCase.HandleBatchDownload | internal/usecase/batch_download_usecase.go:30-70 | The loop is the fold Batch.BatchDownload |
| UseCases.DownloadUseCase.HandleDownloadObject | internal/usecase/download_usecase.go:30-55 | Offers a download only when the record is marked |
| UseCases.ProxyUploadUseCase.Execute | internal/usecase/proxy_upload_usecase.go:34-67 | Authorize, read, put, mark, update: equal to Service.ProxyUpload |
| UseCases.VerifyUseCase.VerifyUpload | internal/usecase/verify_usecase.go:33-73 | Check, read, compare the size, mark, update, drop the batch key: equal to Service.VerifyUpload |
| UseCases.ProxyDownloadUseCase.Execute | internal/usecase/proxy_download_usecase.go:34-69 | Authorize, read, check, stream: equal to Service.ProxyDownload |
| Redis.RedisClient.Get | internal/infrastructure/redis/cache.go:16-26 | Only unexpired entries are seen |
| Redis.RedisClient.Set | internal/infrastructure/redis/cache.go:28-35 | What a set with a time to live does to the entries and to what is seen of them |
| Redis.RedisClient.Delete | internal/infrastructure/redis/cache.go:37-44 | What a delete does |
| Redis.RedisClient.GetDel | internal/infrastructure/redis/cache.go:85-99 | Reads and removes in one command |
| ReadThrough.CachedValuesAreRecent | internal/infrastructure/redis/cache_keys.go:42-58 | In every interleaved run with edits, expiry, lost writes and lost deletes, a cached membership, record or key set whose own time to live is positive was what its source said less than that, plus the time it was in flight, ago |
| ReadThrough.RunsKeepInvariant | internal/infrastructure/caching_repository_allowlist.go:46-112 | Every cached entry was true at some moment and dies within its time to live of it |
| CacheCalls.AllowlistAnswersAreRecent | internal/infrastructure/caching_repository_allowlist.go:46-62 | In every such run an answer of IsAllowed is the membership of a moment within the bound, for a positive time to live and a name the column does not cut off |
| CacheCalls.MetadataAnswersAreRecent | internal/infrastructure/caching_lfs_object_repository.go:32-95 | A record FindByOID returns, and an existence ExistsByOID reports, is that of a moment less than 30 minutes plus the time in flight ago, whatever the allowlist's time to live |
| CacheCalls.KeysAreRecent | internal/infrastructure/oidc/jwks.go:55-75 | A public key was served by its endpoint less than a day plus the time in flight ago, whatever the allowlist's time to live |
| CacheCalls.StalenessIsBounded | internal/infrastructure/caching_repository_allowlist.go:46-112 | With atomic calls the bounds are the times to live themselves, for the three caches in one run; only the allowlist's depends on its time to live and on the name |
| CacheCalls.StalenessIsBoundedExactlyWhen | internal/infrastructure/caching_repository_allowlist.go:34-44 | The constructor takes any time to live and the table any name: the allowlist bound holds if and only if the time to live is positive and the name not cut off, or the name has a NUL and is never answered for |
| CacheCalls.ZeroTtlNeverForgets | internal/infrastructure/caching_repository_allowlist.go:75-84 | With a time to live of zero or less and one lost cache delete, a removed repository stays allowed for any number of seconds |
| CacheCalls.CutOffNamesAreAllowed | internal/infrastructure/caching_repository_allowlist.go:64-73 | A name that is cut off is added under another name and cached as it is: IsAllowed answers yes for a repository that was never a member |
| CacheCalls.MetadataCallsAreTheRepository | internal/infrastructure/caching_lfs_object_repository.go:32-84 | The timed metadata calls do to the stores what the repository operations do |
| CacheCalls.CallsAreRuns | internal/infrastructure/caching_repository_allowlist.go:46-84 | Every atomic call is a run of store calls with no time between them |
| Remembered.WrittenRecordsAreRemembered | internal/infrastructure/caching_lfs_object_repository.go:66-84 | A record that was saved or updated is found without the table for exactly 30 minutes |
| Remembered.LookedUpRecordsAreRemembered | internal/infrastructure/caching_lfs_object_repository.go:32-64 | So is one that was looked up in the table |
| Remembered.BrokenEntriesAreRepaired | internal/infrastructure/caching_lfs_object_repository.go:32-64 | A cached entry that is no record or does not read back counts for nothing, and the lookup that comes across it replaces it by the row |
| Remembered.ExistenceIsAnswered | internal/infrastructure/caching_lfs_object_repository.go:86-95 | An existence check answers if and only if Redis has the key or the table answers, and then yes or what the table says |
| Remembered.AllowlistReadsItsWrites | internal/infrastructure/caching_repository_allowlist.go:64-84 | Whoever adds a repository reads that it is allowed, without the table for exactly the time to live; whoever removes one reads that it is not; removing what is not there changes nothing |
| Remembered.FailedEditsLeaveTheCache | internal/infrastructure/caching_repository_allowlist.go:64-84 | An edit of the allowlist that is not acknowledged is an error and leaves the cache alone |
| Remembered.AnswersAreRemembered | internal/infrastructure/caching_repository_allowlist.go:46-62 | An answer of the table, yes or no, is repeated without it for exactly the time to live |
| Remembered.FetchedSetsAreRemembered | internal/infrastructure/oidc/jwks.go:55-75 | A fetched set serves each of its keys without the endpoint for exactly a day |
| Allowlist.CachingRepositoryAllowlist.constructor | internal/infrastructure/caching_repository_allowlist.go:23-32 | The time to live is five minutes unless another is given |
| Allowlist.CachingRepositoryAllowlist.IsAllowed | internal/infrastructure/caching_repository_allowlist.go:46-62 | The read-through membership test |
| Allowlist.CachingRepositoryAllowlist.AddRepository | internal/infrastructure/caching_repository_allowlist.go:64-73 | Table first, then the cache; a failing cache write is ignored |
| Allowlist.CachingRepositoryAllowlist.RemoveRepository | internal/infrastructure/caching_repository_allowlist.go:75-84 | Table first, then the cache delete; a missing repository is an error and leaves the cache alone |
| Jwks.KeyRoundTrip | internal/infrastructure/oidc/jwks.go:121-149 | For every modulus and every exponent up to 2^63-1, writing a key (section 6.3.1 of RFC 7518) and parsing it gives it back; every larger exponent is rejected |
| Jwks.JWKSFetcher.FindKey | internal/infrastructure/oidc/jwks.go:111-118 | The loop returns what the first RSA entry with the key id parses to |
| Jwks.FoundExactlyWhenServed | internal/infrastructure/oidc/jwks.go:111-118 | A key is found if and only if the first RSA entry of the set with that id carries it: its two fields, read as base64url and big-endian, are the modulus and an exponent that is an int64 |
| Jwks.MissingExactlyWhenUnpublished | internal/infrastructure/oidc/jwks.go:111-118 | A key is reported missing if and only if the set has no RSA entry with its id |
| Jwks.PublishedKeysAreFound | internal/infrastructure/oidc/jwks.go:111-149 | A set published under distinct ids gives every id its own key |
| Jwks.LookupSurvivesRotation | internal/infrastructure/oidc/jwks.go:55-75 | A lookup succeeds if and only if the cached set or the fetched one has a usable first match, and returns a key of that set |
| Jwks.JWKSFetcher.GetKey | internal/infrastructure/oidc/jwks.go:55-75 | Cache, then endpoint, then cache write: equal to Jwks.GetPublicKey |
| BigEndian.BytesRoundTrip | cmd/generate-test-keys/main.go:88-90 | Big-endian bytes give the number back |
| BigEndian.BytesIsMinimal | cmd/generate-test-keys/main.go:88-90 | They are the shortest byte string with that value: the one without a leading zero |
| Base64Url.EncodingRoundTrip | internal/infrastructure/oidc/jwks.go:122-130 | Unpadded base64url (section 5 of RFC 4648) decodes to what was encoded, for every byte string |
| Base64Url.LineBreaksAreSkipped | internal/infrastructure/oidc/jwks.go:122-130 | The decoder ignores line breaks wherever they are |
| Base64Url.EncodingIsPositional | internal/infrastructure/oidc/jwks.go:122-130 | Three bytes are four characters with the same 24 bits in the same order; what is left over is padded with zero bits |
| Base64Url.AlphabetIsTheStandards | internal/infrastructure/oidc/jwks.go:122-130 | The alphabet is that of section 5 of RFC 4648 |
| Sessions.PermissionDecision | internal/handler/batch_handler.go:75-103 | Uploading is allowed if and only if push, admin or maintain is set, downloading if and only if any flag is; whoever may upload may do everything; any other operation asks only for a permissions record |
| Sessions.StoredFlagsDecide | internal/domain/repository_permissions.go:21-27 | The same of a session read back from its stored flags: pull and triage alone do not let it upload |
| Sessions.UsersHaveSubjects | internal/domain/user_info.go:13-25 | A user is refused without a subject, and starts without permissions, so may not even download |
| Sessions.SessionRoundTrip | internal/infrastructure/redis/user_info_serializer.go:54-127 | A stored session reads back if and only if the subject is not empty and the provider known; identity, repository and ref are kept, and all-false permissions come back as none |
| Sessions.RestoreFailures | internal/infrastructure/redis/user_info_serializer.go:86-127 | What cannot be read and why, each error with its exact condition: the provider first, then the repository, then the subject |
| Sessions.StoredRoundTrip | internal/infrastructure/redis/user_info_serializer.go:86-127 | A session that can be read is the stored form of what was read |
| Sessions.SessionKeepsDecisionExactlyWhen | internal/handler/batch_handler.go:75-103 | The permission decision survives the round trip if and only if the operation is one of the protocol or the permissions are not the all-false record |
| Sessions.UserInfoSerializer.Serialize | internal/infrastructure/redis/user_info_serializer.go:54-84 | The stored form, field by field |
| Sessions.UserInfoSerializer.Deserialize | internal/infrastructure/redis/user_info_serializer.go:86-127 | The user read back, or the error |
| Sessions.SessionStore.CreateSession | internal/infrastructure/redis/session.go:11-31 | The session entry and its lifetime, 24 hours when none is given |
| Sessions.SessionStore.GetSession | internal/infrastructure/redis/session.go:33-45 | A session is returned exactly when a live entry can be read |
| OAuthTheorems.StateIsConsumedOnce | internal/usecase/github_oauth_usecase.go:90-139 | Over every interleaving of starts and callbacks each saved state yields at most one session (sections 4.1.1 and 10.12 of RFC 6749), and the callback that succeeds returns that session and the shell of the matching start |
| OAuthTheorems.SessionCarriesItsStart | internal/usecase/github_oauth_usecase.go:95-134 | Every session, and so every session entry in Redis, is field by field that of the user GitHub named to its callback, for the repository given at the matching start, with exactly the permissions GitHub answered, which let the user read; and it reads back as that user |
| OAuthTheorems.SessionsActForTheirUser | internal/usecase/github_oauth_usecase.go:106-127 | So a session may upload if and only if GitHub answered push, admin or maintain, and two sessions have the same subject if and only if their users have the same GitHub id |
| OAuthTheorems.TakenStatesStayGone | internal/infrastructure/redis/oauth_state_store.go:41-55 | A state still in Redis was saved by a start, has not been taken and has never opened a session |
| OAuthTheorems.HistoryIsKept | internal/usecase/github_oauth_usecase.go:44-139 | Sessions written, states saved and states taken are never forgotten or changed, so a taken state never comes back |
| OAuthInvariants.RunsKeepInvariant | internal/usecase/github_oauth_usecase.go:63-69 | Every run keeps the invariant: a state entry is the record of its start and not taken, a callback holds what its start was given |
| OAuthInvariants.StateRoundTrip | internal/infrastructure/redis/oauth_state_store.go:27-55 | A stored state gives back its repository, redirect URI and shell |
| RedirectRace.URIsStayOwnExactlyWhenOneURI | internal/usecase/github_oauth_usecase.go:71-101 | The provider keeps one redirect URI for all requests: no interleaving makes a code exchange name another login's URI if and only if the allowed URIs are all the same up to surrounding space, and the same holds of authorization URLs |
| RedirectRace.TwoStartsCanMix | internal/usecase/github_oauth_usecase.go:71-72 | With two such URIs a start between another start's set and use replaces the URI in the other's authorization URL |
| RedirectRace.TwoURIsCanMix | internal/infrastructure/oidc/github_token_exchanger.go:44-66 | With two such URIs a start between another callback's set and use replaces the URI that callback sends |
| OAuthOperations.StartSucceedsExactlyWhen | internal/usecase/github_oauth_usecase.go:44-75 | A start succeeds if and only if there is a repository, the redirect URI is one of those allowed and the state is saved; it leaves that state's record; a refused start has no effect |
| OAuthOperations.CallbackSucceedsExactlyWhen | internal/usecase/github_oauth_usecase.go:77-140 | A callback succeeds if and only if its state is live, GitHub grants the token, names the user and lets the user read, and the session is saved; the session entry is that user's, with GitHub's id in base ten and GitHub's flags; the state is gone in any case |
| OAuthOperations.CallbackFailures | internal/usecase/github_oauth_usecase.go:82-137 | Each error of a callback has its exact condition, in the order in which it asks; and the one token request it sends has its own code and the redirect URI of the state it took |
| Shells.FormatIntRoundTrip | internal/usecase/github_oauth_usecase.go:111-113 | The subject is the GitHub id in base ten: it reads back as the id, and different ids have different texts |
| Shells.TrimSpaceIsExact | internal/infrastructure/oidc/github_token_exchanger.go:44-46 | Trimming removes space at both ends, all of it and nothing else |
| OAuthOperations.StartIsARun | internal/usecase/github_oauth_usecase.go:44-75 | An undisturbed start is StartAuthentication, and its URL names its own redirect URI |
| OAuthOperations.CallbackIsARun | internal/usecase/github_oauth_usecase.go:77-140 | An undisturbed callback is HandleCallback, its exchange names the URI of the state it took, and its record is what GitHub answered |
| OAuthUseCase.OAuthStateStore.SaveState | internal/infrastructure/redis/oauth_state_store.go:27-39 | The state entry and its lifetime |
| OAuthUseCase.OAuthStateStore.GetAndDeleteState | internal/infrastructure/redis/oauth_state_store.go:41-55 | Reads and removes the state; an unknown shell becomes the zero value |
| OAuthUseCase.GitHubOAuthProvider.SetRedirectURI | internal/infrastructure/oidc/github_token_exchanger.go:44-46 | The shared field, trimmed |
| OAuthUseCase.GitHubOAuthProvider.ExchangeCode | internal/infrastructure/oidc/github_token_exchanger.go:61-66 | The request carries whatever the shared field holds |
| OAuthUseCase.GitHubOAuthUseCase.Start | internal/usecase/github_oauth_usecase.go:44-75 | Equal to OAuthOperations.StartAuthentication on Redis, the provider and the result |
| OAuthUseCase.GitHubOAuthUseCase.Callback | internal/usecase/github_oauth_usecase.go:77-140 | Equal to OAuthOperations.HandleCallback, token request included |

## Left out

- Timestamps: the stores keep them at different precisions, so no agreement is claimed about them.
- Expiry in the interleaved lifecycle and in the interleaved login: an entry may vanish at any moment, which covers every time to live; the clock is in the staleness model.
- JSON text: values are stored as records; a value that does not decode, or decodes to a record the reader refuses, counts as a miss.
- The upper bound of 64-bit object sizes: sizes are natural numbers, negative ones are rejected as in the code.
- The S3 client: a put stores exactly the declared number of bytes or nothing, and a key has one value; of a longer body the rest is not sent, and whether that is reported as a failure is left to the fault.
- Redis.RedisClient.Set: does not model times to live below one second, nor the client's value of minus one nanosecond, which keeps the old expiry; they are whole seconds, and zero or less means no expiry.
- Database rows edited by hand while objects are in use: the lifecycle starts from empty stores; the staleness model allows any edit.
- Presigned URLs, HTTP handlers, headers, cookies, pages and shell scripts.
- Token signatures and GitHub's API: what GitHub answers is a parameter.
- UUIDs: a random id is a parameter and a used one is never drawn again.
- Other characters a client escapes in a URL, and dot segments: names are taken to arrive as they are written, but for the three characters above.
- The authorization URL's text: it is the pair of state and redirect URI.
- The size limit on a fetched key set: an unreadable response is a failed fetch. One endpoint per provider name.
- `EqualsFold` and the OIDC login of CI jobs: library case folding and token checks, few branches.
- Listing the allowlist, deleting policies, and the unused transaction helper.
- A nil allowlist repository or nil user: the callers never pass one.
- The slices `BatchRequest` copies: requests are values here.
- The batch-upload key is only ever deleted, so only its deletion is modelled.
- The GitHub user serializer: four strings copied back and forth.
- Redis entries of another type than the key family's: only the owners of a family write its keys.
