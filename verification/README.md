# A verified model of the audio conversion service

The service takes a video URL, downloads its audio once, and converts clips of it on request.
HTTP handlers and two pools of workers share an in-memory store, two bounded priority queues and
two directories of files; token buckets stand in front of the handlers. This project models that
logic in Dafny and proves what its parts promise, over every input, every run of the queue and
every interleaving of the handlers' steps. `dafny verify dfyconfig.toml` checks all of it.

## How the model is built

**Queue** (`Jobs`, `JobQueue`, `QueueRank`, `QueueRuns`, `Monitor`). `JobQueue.Queue` is the heap with
the sift loops of Go's container/heap, proved against a bounded multiset from which a first job is
taken. `QueueRank` says what the reported position means for the order in which the queue can be
drained. `QueueRuns` is about runs of the multiset, and `Monitor` about the mutex and condition
variable: each of its steps is one critical section, and its runs are proved to be runs of the queue.

**Limiters** (`TokenBucket`, `Limiters`, `Chain`). Clock readings and rates are reals. The bucket and
the per-IP limiter are classes proved against functions on values; the closed form, the independence
of addresses and the optimality of the bucket are proved of those functions. In `Chain` the stages of
different requests interleave freely, and each limiter only sees its own clock in order.

**Texts** (`Text`, `ClipBounds`, `VariantKey`, `HumanDuration`, `CanonicalId`, `Backoff`). Numerals,
splitting and trimming are modelled character by character, int64 arithmetic by explicit wrap-around
at every operation.

**Store** (`Model`, `MemoryStore`, `Ownership`). `MemoryStore` is the class with its four maps; sessions
are objects, so the difference between the caller's object (kept by create and update) and the fresh
copy (handed out by get) is in the contracts. `Ownership` lets handlers write to the objects they hold
between store calls and proves who can see what.

**Protocol, every interleaving** (`ApiModel`, `Effects`, `ApiInvariant`, `ApiRetries`, `Identity`, `Promises`,
`Finality`, `VariantCache`, `VariantMatch`). In `ApiModel` each handler is a small program. One step is one
store call, one look at a file, one tool run or one queue operation; between two steps a handler works on
its own copy of the session, so lost updates are possible. The invariants are proved for every interleaving
of these steps with dequeues, retries and file expiry.

**Protocol, whole handlers** (`HandlerRuns`, `HandlerClaims`, `ConvertOutcome`, `Outcomes`, `Dedup`, `Sharing`,
`SharingFails`, `SelfHealing`, `VariantClash`, `WholeRuns`, `Scenarios`, `FreshIds`). `HandlerRuns` runs a program to
its end with nothing in between, for the statements about one request, one worker pass or a sequence of requests.
`Outcomes` says of each what it replies and leaves, with every condition written out.
`WholeRuns` proves that such a handler is one of the interleavings, and `Scenarios` uses it to reach, from the
start of the server, the states in which a natural claim fails.

**Code over the state** (`TaskQueues`, `Api`). `TaskQueues` holds two `JobQueue.Queue` heaps and a record of
where every job is, and keeps each heap equal to the waiting jobs of its kind. The methods of `Api.Api`, written
over `MemoryStore`, the files and these queues, are proved to have exactly the effect of the small programs run
to their end, and carry what `HandlerClaims` proves of them.

Assumptions, all of them visible as parameters or `requires`:

- `HashString` is the function `Config.hash`; it yields 40 hexadecimal digits (`HexHashes`). No function
  into 40 digits is injective on all texts, so results that need it say that no two texts *hashed during
  the run* collide (`CollisionFree`).
- `CanonicalVideoID` is `Config.canon` in the protocol, and equal canonical ids mean the same audio.
- yt-dlp and ffmpeg succeed or fail arbitrarily. A successful run installs its file in one step, and the
  file may be empty; a failed one leaves files alone. ffmpeg fails without a non-empty source.
- Session and job ids are fresh. The service starts on empty directories.
- Any waiting job may be dequeued next in `ApiModel`: a superset of what the priority order allows.
- The history fields `hashed`, `converted`, `urls` and `calls` record what has happened and influence nothing.

## Where promises and code differ

The code is followed and the exact condition is proved; for the protocol, a run from the start reaches a failing state.

- README.md:9 promises a single download per URL. With nothing but requests in between, `k` downloads of one
  video can be queued, for any `k` above 1, exactly when the queue has room for them, some session of the video
  points at a missing file, and some request for that session is neither rejected nor answered from the cache
  (`SharingFailsIff`). One such session is enough: while the convert queue is full, every refused request on it
  queues one more download. `StaleIsReached` gets there by a prepare, a download and an expiry.
- README.md:9 promises one output per variant. In every run all outputs match their names at all times exactly
  when no conversion runs under the name of another clip (`MatchIffNeverSpoiled`), and one does exactly when the
  session's variant is no longer the job's (`ConversionMatchesIffVariantIsCurrent`). One clip per session is enough
  for a cache that agrees with recomputation (`CacheAgrees`); two are enough to spoil it (`SpoiledOutputIsReached`).
- An asset marked as being prepared need not have a download to come: `PreparingIffPromised` says when it has,
  `PreparingMeansPromised` that only a refused Enqueue, a refused return to the queue or a deleted session can break
  the promise, and `BrokenPromiseIsReached` that for every queue length something does.
- Completed and failed are not final: `LeavesFinalIff` lists exactly the steps that end them, `CompletedIsReopened`
  takes one. Nor does completed imply an output: `CompletedWithoutOutputIff` and `CompletedWithoutOutputIsReached`.
- README.md:119 promises FIFO inside a priority tier. The heap is not stable: on equal timestamps either job
  may come first. `PositionIsRankIffNoTie` says exactly when queue_position is the true rank.
- README.md:38 promises exponential backoff. `BackoffExact` lists the attempt counts, all above 33, for which
  the int64 product wraps around and the retry is immediate.
- A convert job looks for its source again after every delay, but a session that is stored as downloading
  and points at a missing file is never helped by that (`HealsIffNotStuck`, `StuckIsReached`).
- Clip bounds of more than an int64 of seconds are accepted as negative ones (`OverflowIsAccepted`), and
  only those are misjudged (`AcceptedIsRightIffNoOverflow`).

## Model

| member | source | states |
|---|---|---|
| JobQueue.RootIsFirst | internal/queue/queue.go:34-52 | no entry of a heap precedes its root |
| JobQueue.Queue.Up | internal/queue/queue.go:70-79 | sift-up of container/heap restores the heap order and keeps the multiset of jobs |
| JobQueue.Queue.Down | internal/queue/queue.go:81-89 | sift-down restores the heap order of the first n entries, leaves the rest in place and keeps the multiset |
| JobQueue.Queue.Enqueue | internal/queue/queue.go:70-79 | accepted exactly when there is room, adding just that job; a refused call changes nothing |
| JobQueue.Queue.Dequeue | internal/queue/queue.go:81-89 | removes exactly the job it returns; every queued job has a lower priority, or the same priority and no earlier timestamp |
| JobQueue.Queue.PositionForSession | internal/queue/queue.go:91-122 | 0 exactly when nothing matches; otherwise one more than the queued jobs of the type with a higher priority, or the same and an earlier timestamp, than an earliest match |
| TaskQueues.TaskQueues.Enqueue | internal/queue/queue.go:70-79 | on the heap of the job's kind: accepted iff fewer jobs of that kind wait than the capacity; the heaps stay equal to the waiting jobs |
| TaskQueues.TaskQueues.Take | internal/queue/queue.go:81-89 | hands out a waiting job of the kind; every other has a lower priority, or the same priority and no earlier timestamp |
| QueueRank.EarliestMatch | internal/queue/queue.go:95-104 | finds a matching job of least timestamp, and nothing exactly when there is no match |
| QueueRank.PositionRange | internal/queue/queue.go:91-122 | 0 iff no match, and never more than the number of queued jobs of the type |
| QueueRank.PositionInNumbers | internal/queue/queue.go:91-122 | the rank function that the two scans compute, in numbers |
| QueueRank.DrainsAreOrderings | internal/queue/queue.go:81-89 | what repeated Dequeue can return is exactly the orderings of the content that put no job after one it precedes |
| QueueRank.PositionBoundsRank | internal/queue/queue.go:91-122 | in every drain the found job is served no earlier than its position among its type, and later only because of ties |
| QueueRank.PositionIsRankIffNoTie | internal/queue/queue.go:91-122 | the position is the rank in every drain if and only if no other queued job of the type ties with the found one |
| QueueRuns.RunConservesJobs | internal/queue/queue.go:70-89 | over any run, content plus arrivals equals jobs served plus what is left |
| QueueRuns.RunStaysWithinCapacity | internal/queue/queue.go:70-79 | the length never exceeds the capacity |
| QueueRuns.ServedWhileWaiting | internal/queue/queue.go:37-43 | while a job waits it stays queued, and no job that it precedes is served |
| QueueRuns.ServedInOrder | internal/queue/queue.go:37-43 | over any run: whatever is served while a job waits has a higher priority, or the same priority and no later timestamp |
| QueueRuns.BoundedOvertaking | internal/queue/queue.go:37-89 | the jobs served while j waits are among those queued or arriving that j does not precede, in multiset and in number |
| QueueRuns.RetryKeepsItsPlace | internal/handlers/api.go:480-490 | a retried job keeps its timestamp, so no job of equal priority created later overtakes it once it is back |
| QueueRuns.SinglePriorityServesByTime | internal/handlers/api.go:209-230 | with a single priority, as for downloads, a waiting job is never overtaken by one enqueued later |
| Monitor.StepKeepsWakeups | internal/queue/queue.go:70-89 | every critical section keeps: if a worker sleeps, queued jobs are at most the signalled workers |
| Monitor.NoWakeupIsLost | internal/queue/queue.go:136-152 | over every run with barging workers: a non-empty queue never has every worker asleep, and some worker can take a first job |
| Monitor.MonitorRefinesQueue | internal/queue/queue.go:70-89 | every run of the monitor is a run of the plain queue with the same final content |
| TokenBucket.TokenBucket.Take | internal/middleware/middleware.go:56-76 | one request, in numbers: refill for the elapsed time up to the burst, admit iff a whole token is there, and pay for it |
| TokenBucket.LevelIsLeastBudget | internal/middleware/middleware.go:28-48 | the level seen by request j is the minimum over i of capacity + rate*(t_j - t_i) - admissions in [i, j) |
| TokenBucket.AdmittedIffEveryWindowAllows | internal/middleware/middleware.go:28-48 | a request is admitted iff no window ending at it would exceed burst + rate * elapsed |
| TokenBucket.WindowBound | internal/middleware/middleware.go:50-67 | every window of requests admits at most burst + rate * elapsed |
| TokenBucket.TokensStayInRange | internal/middleware/middleware.go:28-48 | the level stays within 0 and the burst |
| TokenBucket.BucketIsOptimal | internal/middleware/middleware.go:28-48 | no admission policy that respects the bound on all windows ever admits more than the bucket |
| Limiters.IpLimiter.Allow | internal/middleware/middleware.go:28-48 | takes from the address's bucket, created full on first use, and changes no other bucket |
| Limiters.StartIrrelevant | internal/middleware/middleware.go:31-35 | lazy creation equals a bucket that was full from any earlier moment |
| Limiters.BucketIsOwn | internal/middleware/middleware.go:28-48 | after any interleaved trace an address's bucket is that of its own requests run alone |
| Limiters.PerIpIsIndependent | internal/middleware/middleware.go:28-48 | the decisions for one address equal those of a single bucket on its own subsequence |
| Chain.AdmissionsAreConserved | internal/handlers/api.go:139-146 | global admissions = per-IP rejections + key rejections + handled + still under way |
| Chain.OutcomesExplained | internal/middleware/middleware.go:50-114 | in every run: a request is handled iff the global bucket and then its address's bucket admitted it and its key was valid; and which of the three turned away any other; the per-IP bucket only ever sees what the global one admitted |
| Chain.HandledMeetGlobalBound | internal/handlers/api.go:139-146 | the handled requests of any global window respect the global burst and rate, in every run |
| Chain.HandledMeetPerIpBound | internal/handlers/api.go:139-146 | the handled requests of any address's window respect the per-IP burst and rate, in every run |
| Text.NumeralOfItoa | internal/util/url.go:77-97 | reading a printed numeral gives the number back |
| Text.AtoiExact | internal/util/url.go:86-95 | Atoi reads exactly the digits, or a sign and digits, that denote an int64 |
| Text.SpaceIsIgnored | internal/util/url.go:78 | white space around a text makes no difference to TrimSpace |
| Text.SplitJoins | internal/util/url.go:82 | the parts of a split are free of separators, and joined give the text back |
| ClipBounds.AcceptsExactlyProperClips | internal/util/url.go:74-110 | without overflow, accepts exactly the readable bounds that denote a proper clip, and returns their seconds |
| ClipBounds.AcceptanceInNumbers | internal/util/url.go:98-110 | the same with every condition on start, end, limit and length written out |
| ClipBounds.SecondsOfTwo | internal/util/url.go:91-96 | minutes and seconds between white space denote 60*m + s iff 0 <= m and 0 <= s <= 59 |
| ClipBounds.SecondsOfThree | internal/util/url.go:86-96 | hours, minutes and seconds denote 3600*h + 60*m + s iff in range |
| ClipBounds.ReadableBounds | internal/util/url.go:77-97 | every readable bound is white space, or two or three numbers joined by colons between white space |
| ClipBounds.AcceptedIsRightIffNoOverflow | internal/util/url.go:74-110 | an accepted answer is the denoted, proper clip if and only if neither bound exceeds an int64 |
| ClipBounds.ToSecWrapsOnce | internal/util/url.go:77-97 | with int64 wrap-around at every product and sum, toSec still yields the exact seconds wrapped once |
| ClipBounds.ToSecExactUnlessOverflow | internal/util/url.go:77-97 | toSec, wrapping at each operation, is exact if and only if the denoted seconds fit in an int64 |
| ClipBounds.FormatThenParse | web/index.html:532-541 | toSec inverts formatDuration for exactly the seconds that fit in an int64 |
| ClipBounds.TwoDigitFields | web/index.html:532-541 | seconds, and minutes after hours, are written with two digits |
| ClipBounds.OverflowIsAccepted | internal/util/url.go:77-97 | every duration text just past an int64 is accepted as a negative start |
| ClipBounds.AcceptedTextIsClock | internal/util/url.go:77-97 | an accepted bound holds only digits, signs, colons and white space |
| VariantKey.KeyIsInjective | internal/handlers/api.go:257-265 | asset, quality, start and end are all determined by the key of an accepted request, whatever the quality text |
| VariantKey.BoundsMatter | internal/handlers/api.go:264-265 | with a separator in a bound two different requests would share a key |
| VariantKey.RenderIsInjective | internal/handlers/api.go:475-505 | sources and outputs of different hashes are different file names |
| HumanDuration.ReadInvertsPrint | internal/handlers/api.go:734-754 | a parser of the five shapes returns the seconds that were printed |
| HumanDuration.FiveShapes | internal/handlers/api.go:734-754 | the five shapes; minutes after hours, and seconds after minutes, have two digits |
| HumanDuration.PrintedDurationsDiffer | internal/handlers/api.go:734-754 | two printed durations are equal iff the numbers are, or both are at most 0 |
| CanonicalId.ShapesOfOneVideo | internal/util/url.go:12-44 | watch, shorts and short links with one id share one canonical id, and other ids have other ones |
| CanonicalId.BaseIsLastElement | internal/util/url.go:30-37 | path.Base is the last element of the path behind any trailing slashes, and nothing else is |
| CanonicalId.CanonicalVideoIDExact | internal/util/url.go:12-44 | all branches: an unparsable text is trimmed, a URL gets the id of the video it names and of no other, and one that names none its bare text |
| CanonicalId.WatchId | internal/util/url.go:24-28 | at any host that lower-cases to a text containing youtube.com, a v parameter is the video id, and no other |
| CanonicalId.ShortsId | internal/util/url.go:29-32 | without one, the last element of a path under /shorts/ there is |
| CanonicalId.ShortLinkId | internal/util/url.go:34-39 | at a host that contains youtu.be only, the last path element is, unless it is a bare slash |
| CanonicalId.OtherHostId | internal/util/url.go:40-43 | at a host with neither text at any position, the id is the bare text |
| CanonicalId.CanonicalIgnoresSpace | internal/util/url.go:15-18 | white space around the text makes no difference |
| Backoff.BackoffExact | internal/handlers/api.go:573-594 | the delay is min(2^a, 60) seconds for exactly a <= 33 and eight larger counts; otherwise the retry is immediate |
| Backoff.TotalBackoffBound | internal/handlers/api.go:480-500 | n >= 6 failed attempts sleep at most 62 + 60*(n - 6) seconds in all, exactly that long if and only if n <= 34; a negative delay counts as no sleep |
| MemoryStore.MemoryStore.CreateSession | internal/store/store.go:56-66 | adds the session iff its id is new, keeping the caller's object |
| MemoryStore.MemoryStore.UpdateSession | internal/store/store.go:68-77 | replaces the session iff its id is stored, keeping the caller's object |
| MemoryStore.MemoryStore.GetSession | internal/store/store.go:79-88 | returns a fresh object with the stored value, or nothing iff the id is absent |
| MemoryStore.MemoryStore.DeleteSession | internal/store/store.go:90-100 | removes the session and exactly the URL entries that point at it |
| MemoryStore.MemoryStore.FindByURL | internal/store/store.go:102-107 | looks up the id of a URL |
| MemoryStore.MemoryStore.SetURLMap | internal/store/store.go:109-114 | changes one URL entry and nothing else |
| MemoryStore.MemoryStore.SetVariant | internal/store/store.go:116-121 | changes one variant entry and nothing else |
| MemoryStore.MemoryStore.GetVariant | internal/store/store.go:123-128 | an absent variant reads as an empty path |
| MemoryStore.MemoryStore.SetAsset | internal/store/store.go:130-138 | changes path and state of one asset together |
| MemoryStore.MemoryStore.GetAsset | internal/store/store.go:140-148 | an absent asset reads as an empty path without a state |
| Ownership.StepRefinesValues | internal/store/store.go:56-100 | with references, create, get, update and delete act on the visible sessions exactly as on a map of values |
| Ownership.UnlockedWrite | internal/store/store.go:68-88 | an unlocked write shows in the store iff the writer's object is the stored one, and no other handler's copy changes |
| Ownership.HandlersNeverShare | internal/store/store.go:79-88 | in no run do two handlers hold the same session object |
| Ownership.DeleteIsFinal | internal/store/store.go:68-100 | a deleted id never reappears, whatever stale copies are written back |
| ApiInvariant.StepKeepsInv | internal/handlers/api.go:176-602 | every step of every handler keeps the invariant of the maps, the local copies and the jobs |
| ApiInvariant.ReachedInv | internal/handlers/api.go:176-602 | that invariant holds in every state any interleaving can reach |
| ApiInvariant.ReachedMaps | internal/store/store.go:116-148 | asset path non-empty iff downloaded, and then its own source; session hashes and paths derive from the session's URL; Preparing and Created have no source; an output was once converted for this asset |
| Identity.UrlNeverChanges | internal/store/store.go:56-100 | whatever happens in between, a session that is stored at two moments has the same URL |
| ApiRetries.RetriesAreBounded | internal/handlers/api.go:480-500 | in any run a job's tool is invoked at most max(1, MaxJobRetries) times, exactly that often if it gives up |
| ApiRetries.RetriesKeepTheJob | internal/handlers/api.go:482-489 | whatever happens, a job keeps id, session, parameters, priority and timestamp |
| ApiRetries.FailureRetriesOrRecords | internal/handlers/api.go:573-594 | a failed invocation leads back to the queue while attempts are left, and else to recording the failure |
| ApiRetries.LastFailureMarksSession | internal/handlers/api.go:490-500 | the final failure stores the job's session as failed, and does not revive a deleted one |
| Promises.PreparingIffPromised | internal/handlers/api.go:224-228 | in every reached state, an asset marked as being prepared has a live download job or a handler about to queue one, if and only if its last promised download was not lost since it was last marked |
| Promises.PreparingMeansPromised | internal/handlers/api.go:465-489 | such a loss takes a refused Enqueue, a refused return to the queue, or a download job whose session was deleted |
| Finality.LeavesFinalIff | internal/handlers/api.go:465-602 | for every reached state and step: a completed or failed session stops being so exactly if the step deletes it, stores it at one of seven listed points of the handlers, or writes back an older copy that is not final |
| VariantCache.StepKeepsPlan | internal/handlers/api.go:264-281 | whatever is asked for: source files hold the audio of their hash, and every variant, job and output is of a clip hashed in this run and free of separators |
| VariantMatch.MatchIffNeverSpoiled | internal/handlers/api.go:562-601 | in any run, all outputs match their names at all times if and only if no conversion runs under the name of another clip |
| VariantMatch.ConversionMatchesIffVariantIsCurrent | internal/handlers/api.go:562-601 | for every reached state about to convert: the session's variant is that of exactly one clip hashed in the run, and the file written matches its name iff that clip is the job's |
| VariantMatch.CacheAgrees | internal/handlers/api.go:264-281 | in runs with one clip per session, a non-empty file at a variant's output path is the conversion of that video with those parameters |
| VariantMatch.ReuseIsRight | internal/handlers/api.go:267-281 | a request about to be completed from an existing output gets the conversion it asked for |
| VariantClash.SecondClipSpoilsTheCache | internal/handlers/api.go:567-570 | after a second convert request for another clip, the waiting job writes the first clip under the second's name |
| HandlerClaims.ConvertDownloadsIff | internal/handlers/api.go:267-313 | a convert request marks the asset iff nothing is reusable and no source is in sight or promised, queues a download iff there is also room, and touches no other asset |
| HandlerClaims.PrepareDownloadsIff | internal/handlers/api.go:209-230 | a prepare request does so iff the asset is absent, failed, or downloaded with its file gone; not when it is expired |
| HandlerClaims.RepliesExplained | internal/handlers/api.go:235-344 | each of the four replies, from the state before: rejected, completed from an existing output, 202 iff the convert queue has room and so has the download queue if it is needed, else 503 |
| HandlerClaims.QueuedConvertHasSource | internal/handlers/api.go:282-344 | after a queued convert request the source is on disk and not empty or the asset is being prepared |
| HandlerClaims.StatusIsAccurate | internal/handlers/api.go:346-386 | after a status request a session completed with an output has it on disk; an expired output is stored as failed, and nothing else changes |
| Outcomes.PrepareOutcome | internal/handlers/api.go:176-233 | a whole prepare request in numbers: rejected iff too long or the id is taken, 503 iff a download is needed and its queue is full, else 202; with the session, asset mark and priority-10 job that it leaves |
| Outcomes.RejectionOutcome | internal/handlers/api.go:241-260 | without overflow, a convert request is rejected iff the session is unknown, its video too long, a bound unreadable, or the bounds no clip of a video of that length; it then changes nothing |
| Outcomes.ReuseOutcome | internal/handlers/api.go:264-281 | a request is answered from the cache iff its variant names a non-empty file, and then only its session changes, to completed with that output |
| Outcomes.ConversionOutcome | internal/handlers/api.go:282-344 | any other request in full: 202 iff the needed queues have a free place; the stored session (Converting iff a source is at hand), the asset mark and both jobs, with their time and priority |
| Outcomes.EarlierRequestFirst | internal/handlers/api.go:315-326 | of two waiting requests the higher priority, and of equal ones the earlier, is served first |
| Outcomes.StatusOutcome | internal/handlers/api.go:346-386 | 404 iff the id is unknown; what a status request changes |
| Outcomes.DeleteOutcome | internal/handlers/api.go:450-462 | always answered; the session goes, and exactly its own output and source files |
| Outcomes.DownloadOutcome | internal/handlers/api.go:465-508 | a whole download pass in each case: no session, success, failure with attempts left, last failure |
| Outcomes.PassWithoutSource | internal/handlers/api.go:516-546 | a conversion pass for a session without a source: takes over the shared one, or marks the asset, asks for a download and sleeps |
| Outcomes.PassWithSource | internal/handlers/api.go:540-561 | a conversion pass for a session with one: sleeps while it is being fetched, forgets it when it is gone, or goes on to the converter |
| Outcomes.ConverterOutcome | internal/handlers/api.go:562-601 | from the converter on: success, failure with attempts left, last failure |
| ConvertOutcome.CompletedWithoutOutputIff | internal/handlers/api.go:268-326 | a convert request leaves a session completed without an output iff it was completed, the output asked for is named but gone, and a queue lacks a place that is needed |
| SelfHealing.PassDownloads | internal/handlers/api.go:520-546 | a pass without any source marks the asset, queues a download iff there is room, and goes back to sleep |
| SelfHealing.PassForgets | internal/handlers/api.go:551-561 | a pass that finds its source file gone makes the session forget it |
| SelfHealing.HealsIffNotStuck | internal/handlers/api.go:516-561 | with room, two passes queue a fresh download iff the session is not in Downloading with a source path; no number of passes helps otherwise |
| SelfHealing.LostPathIsRecovered | internal/handlers/api.go:520-546 | if only the session's source path was lost, one pass reaches the converter |
| Dedup.CallIsPaidFor | internal/handlers/api.go:209-313 | each request spends the one credit of a missing asset, or is a stale hit, or queues nothing |
| Dedup.DownloadsAreShared | internal/handlers/api.go:209-313 | from any state, requests for one video queue at most one download plus one per stale hit |
| Dedup.AtMostOneDownload | internal/handlers/api.go:209-313 | at most one download in all when no session of the video points at a missing file (the exact condition is SharingFails.SharingFailsIff) |
| Dedup.TwoStaleSessionsDownloadTwice | internal/handlers/api.go:282-313 | two sessions that point at the missing file make two downloads |
| Sharing.CallDownloads | internal/handlers/api.go:209-313 | a request queues its download exactly when it needs one and there is room, as the only change to the download queue, and marks the asset in either case |
| SharingFails.TriggerDownloads | internal/handlers/api.go:282-326 | with one session that points at a missing file and room for k downloads, some requests for the video queue exactly k |
| SharingFails.SharingFailsIff | internal/handlers/api.go:209-326 | requests alone can queue k > 1 downloads of one video if and only if there is room for them and a stale session with a request that is neither rejected nor answered from the cache |
| WholeRuns.ConvertIsRun | internal/handlers/api.go:235-344 | a convert request that nothing interrupts is a run of the interleaved system with the same effect and reply |
| WholeRuns.FetchIsRun | internal/handlers/api.go:465-508 | so is a download pass |
| WholeRuns.PassIsRun | internal/handlers/api.go:510-602 | so is a conversion pass |
| Scenarios.SpoiledOutputIsReached | internal/handlers/api.go:567-570 | from the start: prepare, download, two convert requests and a conversion reach an output that does not match its name |
| Scenarios.StaleIsReached | internal/handlers/api.go:282-326 | from the start: prepare, download and expiry reach a state from which k downloads of the video follow, for any k from 2 up to the queue's length |
| Scenarios.StuckIsReached | internal/handlers/api.go:465-472 | from the start: a sleeping convert job whose session is stuck in Downloading with its source gone |
| Scenarios.BrokenPromiseIsReached | internal/handlers/api.go:224-228 | from the start, for every queue length: an asset marked as being prepared with no download to come |
| Scenarios.CompletedIsReopened | internal/handlers/api.go:327-333 | from the start: a completed session that a convert request makes convert again |
| Scenarios.CompletedWithoutOutputIsReached | internal/handlers/api.go:278-326 | from the start, with room for one conversion: a completed session without an output |
| Api.Api.HandlePrepare | internal/handlers/api.go:176-233 | on store, files and queues: the effect of the prepare program run to its end; the reply in terms of the state before; the download is queued iff one is needed and there is room |
| Api.Api.HandleConvertReq | internal/handlers/api.go:235-344 | the same for a convert request, with all four exits; rejected, without overflow, exactly for the requests of RejectionOutcome; after 202 the source is on disk or promised |
| Api.Api.HandleStatus | internal/handlers/api.go:346-386 | the same for a status request; 404 iff the id is unknown, and afterwards a session completed with an output has it on disk |
| Api.Api.HandleDelete | internal/handlers/api.go:450-462 | the same for a delete request |
| Api.Api.HandleDownload | internal/handlers/api.go:465-508 | a whole download pass: the program's effect on maps and files, and the job's next place |
| Api.Api.HandleConvert | internal/handlers/api.go:510-602 | a whole conversion pass: the program's effect on maps and files, and the job's next place |
| Api.Api.NextJob | internal/queue/queue.go:81-89 | a worker gets a waiting job of its kind, and every other has a lower priority, or the same priority and no earlier timestamp; that job starts its handler |
| Api.Api.Requeue | internal/handlers/api.go:482-489 | a sleeping job is queued again iff fewer jobs of its kind wait than the capacity, and otherwise forgotten |
| Api.Api.Cleanup | internal/handlers/api.go:87-128 | removes exactly the outputs and sources written longer ago than their lifetimes, and keeps every other file as it is |

## Left out

- HTTP decoding, routing, CORS, security headers, the IP allow-list, HTML pages: plumbing around the handlers.
- `IsAllowedDomain` and the metadata lookup of a prepare request: they decide whether the program starts, and with which duration.
- yt-dlp and ffmpeg themselves, and progress scraping: foreign programs, modelled by their outcome.
- `RedisStore`: an external service; its UpdateSession writes unconditionally, so `DeleteIsFinal` does not apply to it.
- SHA-1 and `url.Parse`: abstract, as described above. CanonicalId lower-cases ASCII letters only.
- Floating-point rounding in the buckets: they are exact over reals.
- `WorkerPool.Stop`: the server never calls it, and no termination is claimed.
- `withPermit`, `buildFlow`, `friendlyStatusText`, `safeFilename`, file serving, metrics, environment parsing: one-step facts.
- The key-to-priority table: a request's priority is given with it.
- CreatedAt, UpdatedAt, error texts and titles of a session: no branch depends on them.
- The heap's index field (never read) and container/heap's test for an overflowing child index.
- The URL map in the protocol: it is part of `MemoryStore`, but no modelled handler branches on it.
- Writes to a session object after it has been stored: in the protocol a store call takes a value; the aliasing itself is treated in `Ownership`.
- The choice among waiting jobs in the interleavings: `ApiModel` dequeues any of them, while `Api.Api.NextJob` proves which one the queues pick; workers are not limited in number.
- Files that survive a restart, when the maps start empty.
