# Geofence SDK core, modelled in Dafny

This project models the core of the CleverTap geofence SDK for Android:

- **the fence record and its parser** (`CTGeofence`): an immutable record, its
  `Builder`, and `CTGeofence.from`, which turns a payload into records in array
  order and keeps the longest well-formed prefix when an entry is malformed;
- **the task serialiser** (`CTGeofenceTaskManager`): a lazily created,
  process-wide manager with a single worker. Work submitted from the worker runs
  inline at once. Any other submission joins a FIFO queue that the worker
  drains one item at a time. Exceptions are contained both around each
  submission and around each queued item;
- **the reconciliation task** (`GeofenceUpdateTask`): it reads the cached
  payload and removes the old fences when a new list arrives. On the reboot
  path, when there is no new list, it re-adds the cached fences instead. It then
  keeps the first `count` entries, caches them, registers them and notifies its
  listener.

Files: `wrappers.dfy` (`Option`), `decimal.dfy` (`String.valueOf(int)` and its
inverse), `geofence.dfy`, `task_manager.dfy`, `update_task.dfy`.

Collaborators become state:
- The cache file is the `store` field of `UpdateTask.Device`.
- The Google geofence adapter, the file writes and the listener are an appended
  event `trace` (`Remove`, `Write`, `Add`, `Complete`).
- The adapter's success callbacks run synchronously, on the calling thread, as
  the source relies on.
- Whether a file write succeeds is a parameter.
- Threads are reduced to the `onWorker` flag. It is true exactly while the
  worker runs a queued item.

Each stateful method is specified against a function of the old state:
- `Execute` against `ExecuteEvents` and `StoreAfter`;
- `From` against `Parsed`;
- `PostAsyncSafely` against `Inline`;
- `DrainOne` against `Drained`;
- `DrainAll` against `DrainedAll`.

The lemmas state the source's promises about those functions.

Notes on what the code does:
- A cached payload that cannot be parsed is not treated exactly like "no
  previous fences". When a new list is given, the code still issues a removal,
  with a null id list (`UnreadableCacheStillRemoves`).
- The default monitoring count is used only when there are no settings at all.
  Otherwise the configured value is taken as is.
- The code checks no record invariant (positive radius, latitude and longitude
  ranges, unique ids), so the model imposes none.
- `postAsyncSafely` returns `void`. The tests' handle or null handle is
  modelled by the `Dispatch` result (`Queued` or `RanInline`).

## Model

| member | source | states |
|---|---|---|
| `Decimal.NatToDecimal` | clevertap-geofence-sdk/src/main/java/com/clevertap/android/geofence/model/CTGeofence.java:106 | the decimal text of a number is non-empty, all digits, with no leading zero |
| `Decimal.IntToDecimal` | clevertap-geofence-sdk/src/main/java/com/clevertap/android/geofence/model/CTGeofence.java:106 | `String.valueOf(int)` starts with '-' exactly for negative ids |
| `Decimal.DecimalRoundTrip` | clevertap-geofence-sdk/src/main/java/com/clevertap/android/geofence/model/CTGeofence.java:106 | reading back a record's id text gives the entry's integer id |
| `Decimal.DecimalInjective` | clevertap-geofence-sdk/src/main/java/com/clevertap/android/geofence/model/CTGeofence.java:106 | distinct integer ids give distinct id strings |
| `Geofence.Builder.constructor` | clevertap-geofence-sdk/src/main/java/com/clevertap/android/geofence/model/CTGeofence.java:42-44 | the id is fixed at construction; every other field starts at Java's default (0, 0.0) |
| `Geofence.Builder.SetTransitionType` | clevertap-geofence-sdk/src/main/java/com/clevertap/android/geofence/model/CTGeofence.java:46-49 | sets only the transition type and returns the same builder |
| `Geofence.Builder.SetLatitude` | clevertap-geofence-sdk/src/main/java/com/clevertap/android/geofence/model/CTGeofence.java:51-54 | sets only the latitude and returns the same builder |
| `Geofence.Builder.SetLongitude` | clevertap-geofence-sdk/src/main/java/com/clevertap/android/geofence/model/CTGeofence.java:56-59 | sets only the longitude and returns the same builder |
| `Geofence.Builder.SetRadius` | clevertap-geofence-sdk/src/main/java/com/clevertap/android/geofence/model/CTGeofence.java:61-64 | sets only the radius and returns the same builder |
| `Geofence.Builder.Build` | clevertap-geofence-sdk/src/main/java/com/clevertap/android/geofence/model/CTGeofence.java:26-32 | the record's getters return exactly the builder's id, transition type, latitude, longitude and radius |
| `Geofence.From` | clevertap-geofence-sdk/src/main/java/com/clevertap/android/geofence/model/CTGeofence.java:96-120 | the builder loop returns `Parsed(p)`: nothing for a payload without an array, otherwise the records up to the first malformed entry |
| `Geofence.FenceOf` | clevertap-geofence-sdk/src/main/java/com/clevertap/android/geofence/model/CTGeofence.java:106-110 | the record built for one well-formed entry: its id is `String.valueOf` of the entry's `id`, transition type 0, and `lat`, `lng`, `r` copied |
| `Geofence.FenceOfIdReadsBack` | clevertap-geofence-sdk/src/main/java/com/clevertap/android/geofence/model/CTGeofence.java:106-110 | the id text of the record built for an entry reads back as that entry's integer `id` |
| `Geofence.ParseEntries` | clevertap-geofence-sdk/src/main/java/com/clevertap/android/geofence/model/CTGeofence.java:100-118 | the records of the entries up to the first malformed one: never more records than entries, and every parsed entry is well formed |
| `Geofence.Parsed` | clevertap-geofence-sdk/src/main/java/com/clevertap/android/geofence/model/CTGeofence.java:96-120 | `from`'s result: empty without a `geofences` array, never longer than the array, every record with transition type 0 |
| `Geofence.ParsedShape` | clevertap-geofence-sdk/src/main/java/com/clevertap/android/geofence/model/CTGeofence.java:100-116 | record k comes from entry k, every parsed entry is well formed, and the entry just past the last record is malformed |
| `Geofence.AllWellFormedParsesAll` | clevertap-geofence-sdk/src/main/java/com/clevertap/android/geofence/model/CTGeofence.java:103-112 | with every entry well formed, exactly one record per entry, in array order |
| `Geofence.MalformedStopsParsing` | clevertap-geofence-sdk/src/main/java/com/clevertap/android/geofence/model/CTGeofence.java:100-116 | a malformed entry at index i leaves exactly the i records of entries 0..i-1 |
| `Geofence.ParsedTransitionTypeIsDefault` | clevertap-geofence-sdk/src/main/java/com/clevertap/android/geofence/model/CTGeofence.java:106-110 | every parsed record keeps transition type 0 |
| `Geofence.ParsedIdsRoundTrip` | clevertap-geofence-sdk/src/main/java/com/clevertap/android/geofence/model/CTGeofence.java:106-110 | a record's id reads back as its entry's `id`; its lat, lng and radius are the entry's `lat`, `lng`, `r` |
| `Geofence.ParsePrefix` | clevertap-geofence-sdk/src/main/java/com/clevertap/android/geofence/model/CTGeofence.java:103-112 | parsing a prefix of the array yields a prefix of the records |
| `TaskManager.RunFrom` | clevertap-geofence-sdk/src/main/java/com/clevertap/android/geofence/CTGeofenceTaskManager.java:47-50 | running a body on the worker ends in a throw exactly when the body itself holds a throw; nested submissions' throws are contained |
| `TaskManager.Inline` | clevertap-geofence-sdk/src/main/java/com/clevertap/android/geofence/CTGeofenceTaskManager.java:44-66 | a submission from the worker: the work runs now; a throw of its body is logged last by the submission handler, and a body that does not throw adds nothing to what it did |
| `TaskManager.Drained` | clevertap-geofence-sdk/src/main/java/com/clevertap/android/geofence/CTGeofenceTaskManager.java:52-62 | a queued item on the worker: its throw is logged last by the worker's handler, and a worker failure is logged exactly when the body throws |
| `TaskManager.DrainedAll` | clevertap-geofence-sdk/src/main/java/com/clevertap/android/geofence/CTGeofenceTaskManager.java:21 | the single worker's run of a queue: one item gives that item's observations; a worker failure is logged iff some queued item throws |
| `TaskManager.TaskManager.constructor` | clevertap-geofence-sdk/src/main/java/com/clevertap/android/geofence/CTGeofenceTaskManager.java:20-22 | a new manager has an empty queue and no running item |
| `TaskManager.TaskManager.PostAsyncSafely` | clevertap-geofence-sdk/src/main/java/com/clevertap/android/geofence/CTGeofenceTaskManager.java:43-67 | from the worker: runs the work now (`Inline`), queue unchanged, no handle; otherwise: appends exactly that work to the queue and runs nothing; never raises |
| `TaskManager.TaskManager.Run` | clevertap-geofence-sdk/src/main/java/com/clevertap/android/geofence/CTGeofenceTaskManager.java:45-50 | running work on the worker observes `RunFrom`; nested submissions all go inline, so the queue is untouched |
| `TaskManager.TaskManager.DrainOne` | clevertap-geofence-sdk/src/main/java/com/clevertap/android/geofence/CTGeofenceTaskManager.java:52-62 | the worker pops the head, runs it as the worker, contains its exception, and the rest of the queue stays in order |
| `TaskManager.TaskManager.DrainAll` | clevertap-geofence-sdk/src/main/java/com/clevertap/android/geofence/CTGeofenceTaskManager.java:21 | the single worker runs all queued items one at a time, in submission order |
| `TaskManager.Process.constructor` | clevertap-geofence-sdk/src/main/java/com/clevertap/android/geofence/CTGeofenceTaskManager.java:16 | no manager exists before the first `getInstance` |
| `TaskManager.Process.GetInstance` | clevertap-geofence-sdk/src/main/java/com/clevertap/android/geofence/CTGeofenceTaskManager.java:24-33 | creates a fresh, empty manager on first use and returns the stored one ever after |
| `TaskManager.GetInstanceTwice` | clevertap-geofence-sdk/src/main/java/com/clevertap/android/geofence/CTGeofenceTaskManager.java:24-33 | two `getInstance` calls return the identical manager |
| `TaskManager.InlineLogsNoTaskFailure` | clevertap-geofence-sdk/src/main/java/com/clevertap/android/geofence/CTGeofenceTaskManager.java:44-66 | exceptions of inline work, at any nesting depth, are caught by the submission handler, never by the worker's |
| `TaskManager.DrainedFailureIsContained` | clevertap-geofence-sdk/src/main/java/com/clevertap/android/geofence/CTGeofenceTaskManager.java:56-60 | a queued item's exception is logged once, by the worker's handler, as its last observation, exactly when its body threw |
| `TaskManager.DrainedAllAppend` | clevertap-geofence-sdk/src/main/java/com/clevertap/android/geofence/CTGeofenceTaskManager.java:21 | draining a queue is draining its parts one after the other |
| `TaskManager.FifoOrder` | clevertap-geofence-sdk/src/main/java/com/clevertap/android/geofence/CTGeofenceTaskManager.java:51-62 | with A queued before B, all that A does (its nested work included) is observed before anything B does |
| `TaskManager.RunIgnoresKind` | clevertap-geofence-sdk/src/main/java/com/clevertap/android/geofence/CTGeofenceTaskManager.java:77-101 | running a body does not depend on which overload submitted it |
| `TaskManager.OverloadsAgree` | clevertap-geofence-sdk/src/main/java/com/clevertap/android/geofence/CTGeofenceTaskManager.java:77-101 | the `Runnable` and `CTGeofenceTask` overloads behave identically, inline and queued |
| `UpdateTask.IsBlank` | clevertap-geofence-sdk/src/main/java/com/clevertap/android/geofence/GeofenceUpdateTask.java:43 | the cache counts as absent exactly when the file is missing or all its characters are at or below U+0020 |
| `UpdateTask.IdsOf` | clevertap-geofence-sdk/src/main/java/com/clevertap/android/geofence/GeofenceUpdateTask.java:49 | `Utils.jsonToGeoFenceList` as assumed: when readable, one id per entry, each the decimal text of the entry's integer id |
| `UpdateTask.IdList` | clevertap-geofence-sdk/src/main/java/com/clevertap/android/geofence/GeofenceUpdateTask.java:49 | the cached object's id list: readable only when the object has a `geofences` array, then one id per entry |
| `UpdateTask.ReadPrior` | clevertap-geofence-sdk/src/main/java/com/clevertap/android/geofence/GeofenceUpdateTask.java:45-54 | the previous payload is absent iff blank; otherwise its object is kept iff the text parses, and then its id list is read; an unparseable text leaves both null |
| `UpdateTask.AddedPayload` | clevertap-geofence-sdk/src/main/java/com/clevertap/android/geofence/GeofenceUpdateTask.java:56-73 | what reaches `addGeofences`: the new list whenever there is one; otherwise the cached object, present exactly when the cache parses |
| `UpdateTask.ConfiguredCount` | clevertap-geofence-sdk/src/main/java/com/clevertap/android/geofence/GeofenceUpdateTask.java:92-97 | the settings' monitoring count, or `DEFAULT_GEO_MONITOR_COUNT` (20) when there are no settings |
| `UpdateTask.SubList` | clevertap-geofence-sdk/src/main/java/com/clevertap/android/geofence/GeofenceUpdateTask.java:99-119 | the cached sublist: a prefix of the array of length min(count, length), or the empty object when there is no array |
| `UpdateTask.AddEvents` | clevertap-geofence-sdk/src/main/java/com/clevertap/android/geofence/GeofenceUpdateTask.java:86-154 | `addGeofences` makes no call exactly for `null`, at most three calls otherwise, and never a removal |
| `UpdateTask.ExecuteEvents` | clevertap-geofence-sdk/src/main/java/com/clevertap/android/geofence/GeofenceUpdateTask.java:31-77 | `execute` starts with a removal exactly when the cache is not blank and a new list is given, and never removes anywhere else |
| `UpdateTask.StoreAfter` | clevertap-geofence-sdk/src/main/java/com/clevertap/android/geofence/GeofenceUpdateTask.java:133-134 | the cache changes only through a successful write of something added, and then holds a parseable object |
| `UpdateTask.SkipLeading` | clevertap-geofence-sdk/src/main/java/com/clevertap/android/geofence/GeofenceUpdateTask.java:43 | `trim()`'s start: the characters skipped are all at or below U+0020, the next one is not |
| `UpdateTask.SkipTrailing` | clevertap-geofence-sdk/src/main/java/com/clevertap/android/geofence/GeofenceUpdateTask.java:43 | `trim()`'s end: the characters dropped are all at or below U+0020, the last kept one is not |
| `UpdateTask.TrimEmptyIffAllWhitespace` | clevertap-geofence-sdk/src/main/java/com/clevertap/android/geofence/GeofenceUpdateTask.java:43 | a cached text is blank after `trim()` exactly when all its characters are at or below U+0020 |
| `UpdateTask.IdListNamesParsedFences` | clevertap-geofence-sdk/src/main/java/com/clevertap/android/geofence/GeofenceUpdateTask.java:49 | when the cached id list is readable it names exactly the fences `from` registers from that payload; that it is readable exactly when every entry is well formed holds under the assumption made for `Utils.jsonToGeoFenceList` (see Left out) |
| `UpdateTask.EffectiveCount` | clevertap-geofence-sdk/src/main/java/com/clevertap/android/geofence/GeofenceUpdateTask.java:104-111 | the effective count is the configured one, lowered to the array length, never raised |
| `UpdateTask.SubListIsCappedPrefix` | clevertap-geofence-sdk/src/main/java/com/clevertap/android/geofence/GeofenceUpdateTask.java:92-119 | the sublist is the first `count` entries in order (all of them when fewer), or the empty object without an array |
| `UpdateTask.SubListIdempotent` | clevertap-geofence-sdk/src/main/java/com/clevertap/android/geofence/GeofenceUpdateTask.java:117-118 | capping an already capped sublist with the same count changes nothing |
| `UpdateTask.RegisteredArePrefixOfAll` | clevertap-geofence-sdk/src/main/java/com/clevertap/android/geofence/GeofenceUpdateTask.java:117-144 | the registered records are the first records of the full list, at most `count` of them |
| `UpdateTask.AddEventsShape` | clevertap-geofence-sdk/src/main/java/com/clevertap/android/geofence/GeofenceUpdateTask.java:86-154 | `addGeofences(null)` does nothing; otherwise exactly Write(sublist), Add(records of that sublist), then Complete iff a listener is set; never a removal |
| `UpdateTask.BlankCacheSkipsRemoval` | clevertap-geofence-sdk/src/main/java/com/clevertap/android/geofence/GeofenceUpdateTask.java:70-73 | with a missing or blank cache the new list goes straight to add, with no removal |
| `UpdateTask.ReplaceRemovesOnceThenAdds` | clevertap-geofence-sdk/src/main/java/com/clevertap/android/geofence/GeofenceUpdateTask.java:56-64 | with a cache and a new list, exactly one removal of the old ids comes first, followed by the new list's add |
| `UpdateTask.RebootReAddsCached` | clevertap-geofence-sdk/src/main/java/com/clevertap/android/geofence/GeofenceUpdateTask.java:65-69 | with a cache and no new list, nothing is removed and the cached object is added back |
| `UpdateTask.NothingToReconcileIsNoOp` | clevertap-geofence-sdk/src/main/java/com/clevertap/android/geofence/GeofenceUpdateTask.java:88-90 | no call at all, and the cache untouched, exactly when there is no new list and no readable cached object |
| `UpdateTask.UnreadableCacheStillRemoves` | clevertap-geofence-sdk/src/main/java/com/clevertap/android/geofence/GeofenceUpdateTask.java:45-58 | an unparseable cache is not fatal: with a new list, a removal with a null id list is still issued, then the add |
| `UpdateTask.WriteBeforeAddWhateverTheWrite` | clevertap-geofence-sdk/src/main/java/com/clevertap/android/geofence/GeofenceUpdateTask.java:133-146 | the write of the sublist comes right before the add of its records, whether or not the write succeeded; a failed write leaves the cache as it was |
| `UpdateTask.MissingArrayWritesEmptyObject` | clevertap-geofence-sdk/src/main/java/com/clevertap/android/geofence/GeofenceUpdateTask.java:99-127 | if the sublist cannot be built, the empty object is written and an empty record list is added |
| `UpdateTask.CompleteOnlyAfterAdd` | clevertap-geofence-sdk/src/main/java/com/clevertap/android/geofence/GeofenceUpdateTask.java:146-153 | Complete occurs iff a listener is set and something was added, and only last, right after the add |
| `UpdateTask.CacheWithinCap` | clevertap-geofence-sdk/src/main/java/com/clevertap/android/geofence/GeofenceUpdateTask.java:104-134 | every run that reaches `addGeofences` with a successful write caches an object of at most the configured number of entries |
| `UpdateTask.CacheStaysWithinCap` | clevertap-geofence-sdk/src/main/java/com/clevertap/android/geofence/GeofenceUpdateTask.java:104-134 | a cache within the configured cap stays within it after a run, whether or not the write succeeds |
| `UpdateTask.UpdateTwiceIsIdempotent` | clevertap-geofence-sdk/src/main/java/com/clevertap/android/geofence/GeofenceUpdateTask.java:40-73 | a second run with the same list caches and registers the same things, after removing the ids the first run cached (the fences it registered) |
| `UpdateTask.RebootRestoresLastUpdate` | clevertap-geofence-sdk/src/main/java/com/clevertap/android/geofence/GeofenceUpdateTask.java:65-69 | after a successful run, a reboot re-caches and re-registers exactly what that run did, removing nothing |
| `UpdateTask.GeofenceUpdateTask.constructor` | clevertap-geofence-sdk/src/main/java/com/clevertap/android/geofence/GeofenceUpdateTask.java:25-29 | the task holds its device and new list, with no listener set |
| `UpdateTask.GeofenceUpdateTask.SetOnCompleteListener` | clevertap-geofence-sdk/src/main/java/com/clevertap/android/geofence/GeofenceUpdateTask.java:156-159 | sets the listener and changes nothing else |
| `UpdateTask.GeofenceUpdateTask.Execute` | clevertap-geofence-sdk/src/main/java/com/clevertap/android/geofence/GeofenceUpdateTask.java:31-77 | appends exactly `ExecuteEvents` of the old cache to the trace and leaves the cache as `StoreAfter` |
| `UpdateTask.GeofenceUpdateTask.AddGeofences` | clevertap-geofence-sdk/src/main/java/com/clevertap/android/geofence/GeofenceUpdateTask.java:86-154 | appends exactly `AddEvents`; the cache becomes the sublist when the write succeeds, else stays |

## Left out

- Real threading (`ExecutorService`, `Thread.getId()`, timing, visibility of the
  non-volatile `EXECUTOR_THREAD_ID`). "Is the caller the worker" is the
  `onWorker` flag. The initial thread id 0 and the fact that it is never reset
  are not reproduced; the flag is cleared when the worker finishes an item.
- The double-checked locking in `getInstance`: the model is sequential, so the
  `synchronized` block has no counterpart.
- The `Future` handle: `postAsyncSafely` returns `void`. The outcome is the
  `Dispatch` value instead.
- A fault inside `es.submit` itself (for instance `RejectedExecutionException`):
  the executor is never shut down in this code. The enqueue path therefore
  cannot fail in the model; the outer handler is modelled for inline work only.
- Work bodies are abstract: effects, nested submissions and throws. Running a
  `GeofenceUpdateTask` through the manager is not composed in the model. Each
  side is verified on its own.
- The file store (`FileUtils`, cache paths, Android `Context`). The cache is one
  `Option<StoredText>` field. A failed write is assumed to leave the file
  unchanged; `FileUtils` is not part of this model.
- JSON text and `org.json`: payloads are abstract entry sequences. A cached text
  is either readable as an object (`Json`) or not (`Raw`). Coercions inside
  `getInt`/`getDouble` are folded into "well formed or malformed".
- `Utils.subArray` and `Utils.jsonToGeoFenceList` are not part of this model.
  They are taken as "prefix of length n" and as "ids of the entries, or a throw
  on a malformed entry or a missing array".
- UpdateTask.GeofenceUpdateTask.Execute: a monitoring count is a `nat`. The
  source does not validate negative counts, and what `Utils.subArray` does
  with them is not part of this model.
- `CTGeofenceSettings` and `CTGeofenceAPI` beyond the monitoring count.
  `DEFAULT_GEO_MONITOR_COUNT` is taken as 20.
- The Google Play Services adapter: only success callbacks, run synchronously.
  Failure callbacks and asynchronous delivery are not modelled.
- The listener's identity: the model records only whether one is set.
- Latitude and longitude are carried as IEEE-754 bit patterns. No arithmetic is
  done on them.
- Logging, and `CTLocationUpdateReceiver` broadcast plumbing.
