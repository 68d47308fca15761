# Perkeep: a verified model of its concurrent and stateful core

This project models the hardest logic of the perkeep repository in Dafny and proves what that
logic promises, for every input, every interleaving and every history. It has four parts.

**Uploading a tree (pk-put).** `ChanWorker` is the worker pool of `internal/chanworker` as a
transition system: pump, workers and closing goroutine, with every channel and its capacity.
`TreeUpload` wires two such pools and the unbounded directory pool to the scanner and the main
loop of `TreeUpload.run`. `TreeUploadSafety` holds the invariant and its preservation by every step
of every goroutine, `TreeUploadProgress` the absence of stuck states, `TreeUploadTermination` the
measure and the theorems about whole runs, and `TreeUploadCache` what an upload finds in the stat cache
and leaves in it. `TreeScan` is the recursive scan of a file system, and
ends with the law for the whole: the upload's result is a plain bottom-up recursion over the
files; `TreeScanCache` shows that a scan's paths are all different and says exactly what is skipped. `Ordering` has the string order and sorting, `StatCache` the stat cache's binary keys and values.

**The publisher's jQuery.** `SizzleCombinators` is the cached ancestor and sibling walk of Sizzle with
its shared cells, `SizzleNthChild` the cached positional filters. `Callbacks` is a reference
meaning for a callback list changed by the callbacks it runs; `CallbackList` is the object with its
`firingIndex`, proved to refine it; `Deferred` is built on two such objects.

**Moving and naming blobs.** `BlobDiff`, `SyncListing`, `SyncEnumerate` and `SyncPass` are one pass of
`pk sync`: the merge, the enumerations that cancel one another, and the copies. `BlobGraph` is the
concurrent loader of `pk-get`, `ZipNames` the renaming of duplicate zip entries, `HopPaths` and
`PublishRequest` the publisher's hop URLs, printed and parsed.

**Data structures.** `Lru` is the LRU cache, `Orientation` the pixel loops that undo an EXIF
orientation, `RollsumSpans` the span tree of `pk debug splits`. `Decimal` and `Wrappers` are shared helpers.

Concurrent code is a state, a set of steps with their guards, and lemmas over all runs; a step is
one channel operation or one call into a library. Code that updates objects or arrays is a class
or a method over arrays, proved against functions on values. Lookups, fetches, file reads, hashing
and the order chosen by `Readdir`, by map iteration and by the scheduler are parameters or
choices over which the theorems quantify. What user callbacks do is a script: the n-th callback to
run makes the n-th list of calls.

## Findings

- `run` in cmd/pk-put/files.go closes `stattedc` before it sends the root, so the loop may exit first
  and meet its own "unexpected nil root node" panic. `NilRootReachable` gives such a schedule for every
  tree, `RootReachable` one that succeeds for every tree with a root. `UploadCorrect` is the exact law: the
  upload ends with the root's blobref if and only if there is a root and the loop received it. There is none
  when the path to upload is itself ignored; then every schedule panics, and callers check for it
  (cmd/pk-put/files.go:243-248).
- Cached :nth-last-child filters count wrongly. On a miss `node` is already the element asked about
  (app/publisher/jquery.js:1756), so the counting loop first walks from there to the first child and leaves
  counts from that element on all elements before it. `NthLastChildQueries` is the exact law: after a
  generation's first query, a later one uses its element's true index if and only if that element does not
  precede the first one. `FirstOfThreeIsMiscounted` is the smallest failing case. XML and of-type counts are right (`Seek`).
- `doPass` in cmd/pk/sync.go ignores `context.Canceled`. `SyncedExactly` is the exact law of a pass that returns
  nil: a source blob ends up synced if and only if the source's enumeration listed it or it was synced before.
  As long as only the pass cancels its context, Canceled never comes without a failure (`ErrorMeansFailure`) and nil means
  synced (`NilMeansSynced`); a source enumeration that reports Canceled of its own accord would be silent (`CanceledAloneIsSilent`).
- The merge in pkg/blobserver/sync.go stops reading the destination when the source ends, while its caller
  waits for the destination's enumeration. `DestinationEnumerationEnds` is the exact condition for that wait to end.
- A stat-cache value whose size has the byte 0x7C decodes to an error, never to a wrong value
  (`ValueRoundTrip`).
- A thumbnail or download URL printed for a subject reached without any hop loses its resource type
  (`NoHopsLost`), and a suffix that ends in a slash or holds a `-` element is not read back;
  `ThumbnailReadBack` is the exact condition.

## Model

| member | source | states |
|---|---|---|
| `ChanWorker.StepValid` | internal/chanworker/chanworker.go:85-120 | The pool invariant (handed out, then `workc`, `buf` and input, spell the sent sequence; each item handed out is in exactly one call; `workc` is closed once, by the pump, and only when drained) survives every step of pump, workers and closer. |
| `ChanWorker.RunValid` | internal/chanworker/chanworker.go:85-120 | The invariant holds after every run, with any number of workers. |
| `ChanWorker.ExactlyOnce` | internal/chanworker/chanworker.go:65-120 | In every reachable state of a bounded pool the calls started are a prefix of the items sent, one call each; the final `fn(nil, false)` comes only after the input is closed, all calls have returned and every worker has exited; the pump never sends after closing. |
| `ChanWorker.StepInOrder` | internal/chanworker/chanworker.go:109-120 | With one worker, no step lets calls overlap or return out of send order. |
| `ChanWorker.SingleWorkerOrder` | internal/chanworker/chanworker.go:109-120 | With one worker, over every run, calls return in send order. |
| `ChanWorker.SpawnStepValid` | internal/chanworker/chanworker.go:49-64 | The invariant of the unbounded pool, whose wait group counts the running calls, survives every step. |
| `ChanWorker.SpawnRunValid` | internal/chanworker/chanworker.go:49-64 | The unbounded pool's invariant holds after every run. |
| `ChanWorker.SpawnExactlyOnce` | internal/chanworker/chanworker.go:49-64 | In the unbounded pool too each item has one call and the final call is last. |
| `TreeUploadSafety.StepMoves` | cmd/pk-put/files.go:1046-1146 | For every weighting of nodes, each step moves weight between places as its meaning says: scanning adds one node, setting a result settles one, nothing else creates or loses any. |
| `TreeUploadSafety.CheckStep` | cmd/pk-put/files.go:1086-1114 | Whatever the upload does to the stat-cache pool is one enabled step of that pool or nothing. |
| `TreeUploadSafety.UploadStep` | cmd/pk-put/files.go:1062-1082 | The same for the upload pool. |
| `TreeUploadSafety.DirStep` | cmd/pk-put/files.go:1046-1060 | The same for the directory pool. |
| `TreeUploadSafety.InitInv` | cmd/pk-put/files.go:987-1045 | The upload invariant holds at the start, for any coherent stat cache. |
| `TreeUploadSafety.StepInv` | cmd/pk-put/files.go:987-1146 | Every step of every goroutine keeps the upload invariant: pools valid, nodes conserved, results and cache entries correct, channels closed in order, statistics exact. |
| `TreeUploadProgress.RunInv` | cmd/pk-put/files.go:987-1146 | The upload invariant holds after every run. |
| `TreeUploadProgress.NeverSetTwice` | cmd/pk-put/files.go:845-856 | No reachable step calls `SetPutResult` on a node that has a result: its panic is unreachable. |
| `TreeUploadProgress.StatsAddUp` | cmd/pk-put/files.go:335-340 | At every reachable state total = skipped + uploaded + in flight, in files and in bytes. |
| `TreeUploadProgress.LeftMeansDone` | cmd/pk-put/files.go:1120-1148 | When the loop exits every node has the bottom-up result and total = skipped + uploaded. |
| `TreeUploadProgress.ChannelsStaySafe` | cmd/pk-put/files.go:1062-1146 | No goroutine sends on, or closes again, a channel that is closed. |
| `TreeUploadProgress.QuietPoolMoves` | internal/chanworker/chanworker.go:85-120 | A closed pool with no call running can always go on towards its final call. |
| `TreeUploadProgress.LeastJobMoves` | cmd/pk-put/files.go:858-865 | Directories wait only on nodes scanned before them, so the least waiting directory can move. |
| `TreeUploadProgress.NeverStuck` | cmd/pk-put/files.go:1043-1146 | In every reachable state before the exit of the loop some step is enabled, without help from the root channel. |
| `TreeUploadTermination.StepShrinks` | cmd/pk-put/files.go:987-1146 | A number computed from the state goes down with every step. |
| `TreeUploadTermination.RunsAreFinite` | cmd/pk-put/files.go:987-1146 | No run is longer than that number at its start. |
| `TreeUploadTermination.UploadTerminates` | cmd/pk-put/files.go:987-1146 | Every run of every upload is bounded, and one that cannot go on has left the loop. |
| `TreeUploadTermination.UploadCorrect` | cmd/pk-put/files.go:1148-1160 | After the loop every node has the result of the bottom-up recursion, the cache is still coherent, and the upload ends with the root's blobref if and only if something was scanned and the loop received the root, else in the panic. |
| `TreeUploadTermination.CanFinishWithoutRoot` | cmd/pk-put/files.go:993-1003 | From every reachable state some schedule finishes without receiving the root. |
| `TreeUploadTermination.NilRootReachable` | cmd/pk-put/files.go:1151-1153 | For every tree and cache some schedule ends in the nil root panic. |
| `TreeUploadTermination.CanFinishWithRoot` | cmd/pk-put/files.go:1125-1126 | From every reachable state inside the loop some schedule receives the root and finishes. |
| `TreeUploadTermination.RootReachable` | cmd/pk-put/files.go:1148-1160 | For every tree with a root and every cache some schedule ends with the root's bottom-up blobref. |
| `TreeUploadCache.StepCacheInv` | cmd/pk-put/files.go:1062-1114 | Every step keeps: a file with its result is in the stat cache in use or about to be written to it; what is in it was there or is a file of this upload; files it held at the start stay out of the upload pool; every skip has a reason. |
| `TreeUploadCache.CacheAfterUpload` | cmd/pk-put/files.go:1077-1081 | When the loop has left, the stat cache holds exactly what it held and, if in use, every file of the tree, each with the blobref that uploading it gives. |
| `TreeUploadCache.SkippedExactly` | cmd/pk-put/files.go:1098-1113 | Every node is reported once, as skipped or as uploaded; a file the cache held at the start is skipped; unless two nodes have the same file information nothing else is. |
| `TreeUploadCache.SecondUploadSkipsFiles` | cmd/pk-put/files.go:1077-1113 | A second upload of a tree with the cache the first one left uploads none of its files. |
| `TreeScan.ByTypeAndNameIsStrictTotal` | cmd/pk-put/files.go:1181-1191 | The comparison of entries is a strict total order. |
| `TreeScan.ListingOrder` | cmd/pk-put/files.go:1181-1191 | In a directory's listing no directory stands before a file, and within each kind the names first differ in a smaller character or the first is a proper prefix of the second. |
| `TreeScan.SortedListingUnique` | cmd/pk-put/files.go:966-971 | Two sorted listings of a directory are equal: sorting leaves no trace of the order read. |
| `TreeScan.Listing` | cmd/pk-put/files.go:1181-1191 | Every directory has a sorted listing. |
| `TreeScan.StatPath` | cmd/pk-put/files.go:937-982 | The recursive scan sends the same nodes, children first, whatever order `Readdir` uses. |
| `TreeScan.ReadSorted` | cmd/pk-put/files.go:962-971 | Reading and sorting gives the directory's unique listing. |
| `TreeScan.StatKids` | cmd/pk-put/files.go:972-980 | The loop over the entries skips the ignored ones and keeps the others in sorted order. |
| `TreeScan.ScanChildrenFirst` | cmd/pk-put/files.go:937-982 | Every child is sent before its parent, only ignored paths yield no node, and the scanned path is sent last. |
| `TreeScan.ScanMatches` | cmd/pk-put/files.go:359-373 | The recursion over the nodes sent equals the recursion over the file system. |
| `TreeScan.UploadIsTreeRef` | cmd/pk-put/files.go:937-1160 | For every tree, every `Readdir` order, every coherent cache and every interleaving, the upload's result is the bottom-up recursion over the file system, members in sorted order, if the loop received the root and the path is not ignored; else it panics. |
| `TreeScanCache.ScanNoTwins` | cmd/pk-put/files.go:972-980 | In a scan of a tree with proper file names every node has a path of its own. |
| `TreeScanCache.ScanSkipsExactly` | cmd/pk-put/files.go:937-1146 | For every scanned tree, cache and interleaving, a node is skipped if and only if it is a file the stat cache in use held at the start, and uploaded if and only if it is not skipped. |
| `Ordering.LessMeans` | cmd/pk-put/files.go:1181-1191 | A string is less than another if and only if it has the smaller character where they first differ or is a proper prefix. |
| `Ordering.AscendingUnique` | cmd/pk-put/files.go:1178-1191 | A strictly ascending sequence is determined by its set of elements. |
| `Ordering.Sort` | app/publisher/zip.go:57-61 | Sorting by a strict total order gives an ascending permutation. |
| `StatCache.KeyInjective` | cmd/pk-put/kvcache.go:234-246 | Keys of different paths or permanode flags never collide, whatever bytes the path has. |
| `StatCache.FullPathIsOne` | cmd/pk-put/kvcache.go:323-331 | A file has one key path however it is named: an absolute name means the same from everywhere, a relative one what directory and name make together. |
| `StatCache.FingerprintInjective` | cmd/pk-put/kvcache.go:340-357 | Equal fingerprints mean equal size, modification time and stat hash. |
| `StatCache.SizeRoundTrip` | cmd/pk-put/kvcache.go:273-308 | Four big-endian bytes give back every 32-bit size. |
| `StatCache.ValueRoundTrip` | cmd/pk-put/kvcache.go:257-321 | A written value is read back as the same blobref and size, or, if and only if a byte of the size is the separator, as an error. |
| `StatCache.KvStatCache.constructor` | cmd/pk-put/kvcache.go:154-171 | Opening the database continues the history of writes that earlier sessions left in it. |
| `StatCache.KvStatCache.AddCachedPutResult` | cmd/pk-put/kvcache.go:205-225 | A write extends the history by the cleaned path, flag, file information and result, and the store stays the history's image. |
| `StatCache.KvStatCache.CachedPutResult` | cmd/pk-put/kvcache.go:177-203 | Over any history, a hit is exactly the blobref and size of the latest write for the same cleaned path and flag, and only when the fingerprints agree. |
| `StatCache.LatestMeans` | cmd/pk-put/kvcache.go:205-225 | The write a lookup goes by is the last one under its key. |
| `StatCache.ExpectedMeans` | cmd/pk-put/kvcache.go:177-203 | A hit gives what the last write under the key wrote, for equal file information; a miss means that write was for other file information or there is none. |
| `SizzleCombinators.WalkIsExists` | app/publisher/jquery.js:2155-2195 | A descendant or general-sibling walk holds if and only if some candidate matches: a previous sibling that is an element, or an ancestor that is one, or any ancestor for a base matcher. |
| `SizzleCombinators.NearestIsFirst` | app/publisher/jquery.js:2145-2153 | A child or adjacent combinator is decided by the nearest such candidate; text and other nodes between are passed over. |
| `SizzleCombinators.CombinatorMeans` | app/publisher/jquery.js:2140-2196 | Both in one: what any combinator means, in terms of the document's parents, previous siblings and elements alone. |
| `SizzleCombinators.Sizzle.Run` | app/publisher/jquery.js:2140-2210 | Running a compiled matcher, caches and all, gives the uncached truth value and leaves every slot it wrote holding a cell that will give uncached answers. |
| `SizzleCombinators.Sizzle.RunAll` | app/publisher/jquery.js:2198-2210 | Trying the matchers from the last back gives their conjunction. |
| `SizzleCombinators.Sizzle.RunNearest` | app/publisher/jquery.js:2145-2153 | The uncached `first` walk agrees with the meaning and keeps the caches sound. |
| `SizzleCombinators.Sizzle.RunUncached` | app/publisher/jquery.js:2160-2168 | The XML walk agrees with the meaning and keeps the caches sound. |
| `SizzleCombinators.Sizzle.RunCached` | app/publisher/jquery.js:2156-2194 | The cached walk, with one shared cell written back for all nodes it passed, agrees with the meaning although inner matchers overwrite slots meanwhile. |
| `SizzleCombinators.Queries` | app/publisher/jquery.js:2140-2196 | Any sequence of queries in one generation, by any of the compiled matchers, from any slots of earlier generations, is answered as without caches. |
| `SizzleNthChild.AcceptsAnB` | app/publisher/jquery.js:1801-1803 | The final test, with JavaScript's remainder and division, accepts exactly the indices a*n + b for n >= 0, as in section 6.6.5.2 of Selectors Level 3, zero and negative steps included. |
| `SizzleNthChild.IndexCounts` | app/publisher/jquery.js:1776-1779 | The index counted is the number of positions up to the node that hold an element, or for of-type a node of its name. |
| `SizzleNthChild.ShortcutAgrees` | app/publisher/jquery.js:1684-1689 | The shortcut for :nth-child(n) agrees with the general test. |
| `SizzleNthChild.Parent.NthChild` | app/publisher/jquery.js:1719-1750 | Counting on from the cached node, restarting at most once, ends with the index counted from the first child, and caches it. |
| `SizzleNthChild.Parent.Seek` | app/publisher/jquery.js:1769-1799 | The counts that are not cached (XML, or by type), in either direction, give the index from that end. |
| `SizzleNthChild.Parent.NthLastChild` | app/publisher/jquery.js:1752-1799 | A cached :nth-last-child query is answered from the cache, or rightly on a miss; a miss numbers every element: those from the last child up to the one asked about by their index, those before it by their distance from it. |
| `SizzleNthChild.GivenIsRight` | app/publisher/jquery.js:1771-1798 | A number so left behind is the element's index if and only if the element does not precede the first one asked about. |
| `SizzleNthChild.FirstOfThreeIsMiscounted` | app/publisher/jquery.js:1771-1798 | Of three elements, after a query for the second, the first is numbered 1 instead of 3. |
| `SizzleNthChild.NthLastChildQueries` | app/publisher/jquery.js:1752-1803 | For every sequence of cached :nth-last-child queries of a generation, the count each uses, which is the true index if and only if the element does not precede the first one asked about, and the filter's verdict. |
| `SizzleNthChild.NthChildQueries` | app/publisher/jquery.js:1679-1806 | For every order of queries and every stale cache, a child is accepted if and only if its index is a*n + b. |
| `SizzleNthChild.NoneInDirection` | app/publisher/jquery.js:1702-1717 | The first-, last- and only- filters hold if and only if no sibling that way is eligible. |
| `SizzleNthChild.FirstIsIndexOne` | app/publisher/jquery.js:1702-1717 | Having no eligible sibling before is having index one. |
| `Callbacks.PassRunsEachOnce` | app/publisher/jquery.js:3182-3195 | Under any re-entrant adds and removes a pass runs entries in list order, none twice, only ones that were in the list; and every entry in the list at the end has had its turn unless a callback stopped the pass, which needs stopOnFalse. |
| `Callbacks.FiresAreFifo` | app/publisher/jquery.js:3311-3321 | Re-entrant fires are served first come first served, and none is left waiting. |
| `Callbacks.FireIsLawfulPasses` | app/publisher/jquery.js:3182-3195 | A fire is a row of passes, one for each fire served and in that order; each starts from an ordered list, the one the pass before left, and obeys the pass law; together they make the calls logged. |
| `Callbacks.AfterSound` | app/publisher/jquery.js:3222-3321 | The list stays in registration order through any call of add, remove or fireWith. |
| `Callbacks.HistoryIsLawful` | app/publisher/jquery.js:3222-3321 | In any history of such calls every pass obeys the pass law and fires are served first come first served. |
| `Callbacks.StopsOnFalse` | app/publisher/jquery.js:3186-3193 | A pass uses one reply for each callback run and is stopped by the first that is false under stopOnFalse, and by nothing else. |
| `Callbacks.RequestedInOrder` | app/publisher/jquery.js:3311-3321 | The fires a callback asks for are those of its fireWith calls, in order. |
| `Callbacks.RemoveAllKeeps` | app/publisher/jquery.js:3253-3266 | remove leaves, on each side of the turn, exactly the entries of other functions, in order. |
| `Callbacks.LeftNeverRuns` | app/publisher/jquery.js:3174-3266 | An entry that has left the list never runs again, whatever the history goes on with. |
| `Callbacks.RemovedNeverRuns` | app/publisher/jquery.js:3253-3266 | After a remove from outside only later registrations of the functions removed run. |
| `Callbacks.RemovedInHistory` | app/publisher/jquery.js:3253-3266 | The same over a whole history: in the log after operation i removed functions, no earlier registration of them occurs. |
| `Callbacks.RemovedByCallback` | app/publisher/jquery.js:3182-3266 | After a remove by a callback, at any turn of any pass, no earlier registration of the functions removed runs in the rest of that pass or in the passes after it, nor is it in the list at the end. |
| `Callbacks.AddAllAdds` | app/publisher/jquery.js:3231-3243 | add keeps what the list had, every function asked for is then in it, and what is new was asked for and, in a unique list, not there before. |
| `Callbacks.AfterNoRepeat` | app/publisher/jquery.js:3234-3236 | A unique list has no function twice after any call and all it sets off. |
| `Callbacks.OnceServesOnce` | app/publisher/jquery.js:3177-3177 | A once list is locked for good by its first fire, and then serves none from outside. |
| `Callbacks.AddRunsRemembered` | app/publisher/jquery.js:3225-3247 | A list that remembers a fire runs just what is added, at once and with the remembered arguments; another runs nothing. |
| `Callbacks.FireLeaves` | app/publisher/jquery.js:3197-3215 | A fire leaves the list its last pass left, remembers the arguments served last unless stopped, and with once is emptied, locked, and spent if it remembers nothing. |
| `Callbacks.AddAllFresh` | app/publisher/jquery.js:3231-3243 | On a list that is not unique every added function gets an entry of its own, in order. |
| `CallbackList.CallbackList.constructor` | app/publisher/jquery.js:3144-3172 | A new list is empty, unlocked and remembers nothing. |
| `CallbackList.CallbackList.Push` | app/publisher/jquery.js:3231-3243 | Adding to the flat list appends to the entries still to come, skipping duplicates of a unique list. |
| `CallbackList.CallbackList.RemoveFn` | app/publisher/jquery.js:3255-3263 | Splicing and adjusting `firingIndex` removes a function from the entries done and the entries to come without moving the turn. |
| `CallbackList.CallbackList.Remove` | app/publisher/jquery.js:3253-3266 | Exactly the entries of other functions are left, in order, on each side of the turn. |
| `CallbackList.CallbackList.Reenter` | app/publisher/jquery.js:3222-3321 | A call made by a running callback does to the object what it does in the reference meaning. |
| `CallbackList.CallbackList.Turn` | app/publisher/jquery.js:3184-3194 | One turn runs the next entry and its calls; returning false with stopOnFalse ends the pass and forgets the arguments. |
| `CallbackList.CallbackList.RunPass` | app/publisher/jquery.js:3184-3194 | The inner loop over a changing list and index runs the pass of the reference meaning. |
| `CallbackList.CallbackList.Serve` | app/publisher/jquery.js:3182-3195 | One fire is taken from the queue and served by one pass. |
| `CallbackList.CallbackList.ServeAll` | app/publisher/jquery.js:3182-3195 | The outer loop ends and serves the reference meaning's passes. |
| `CallbackList.CallbackList.Fire` | app/publisher/jquery.js:3174-3216 | Firing locks, serves the queue, and leaves list, memory and log as the options say. |
| `CallbackList.CallbackList.Add` | app/publisher/jquery.js:3222-3250 | Adding from outside waits, or runs just the new callbacks at once with the remembered arguments, or does nothing on a spent list. |
| `CallbackList.CallbackList.PushIdle` | app/publisher/jquery.js:3231-3243 | Adding to a list that is not firing appends. |
| `CallbackList.CallbackList.FireWith` | app/publisher/jquery.js:3311-3321 | A locked list ignores a fire; another serves it to the whole list. |
| `CallbackList.CallbackList.Disable` | app/publisher/jquery.js:3287-3291 | A disabled list is empty, locked and spent for good. |
| `CallbackList.CallbackList.Call` | app/publisher/jquery.js:3222-3321 | Any add, remove or fireWith from outside does to the object what it does in the reference meaning, and keeps its entries in registration order and, if unique, without repetition. |
| `CallbackList.History` | app/publisher/jquery.js:3144-3336 | Over any history on a real object with any re-entrant calls, its log is that of a row of passes, one for each fire served and first come first served, each running what the pass law says from the list the history has left. |
| `Deferred.Deferred.constructor` | app/publisher/jquery.js:3341-3432 | A new Deferred is pending, with its own callbacks first in each list. |
| `Deferred.Deferred.Accept` | app/publisher/jquery.js:3400-3401 | A registration is kept, in order, on its side. |
| `Deferred.Deferred.Reenter` | app/publisher/jquery.js:3400-3419 | During the settling fire a registration on the winning side is kept, in order; the losing side and further settling calls are ignored. |
| `Deferred.Deferred.OwnTurn` | app/publisher/jquery.js:3404-3412 | The three own callbacks set the state, disable the other list and lock the progress list before any user callback. |
| `Deferred.Deferred.UserTurn` | app/publisher/jquery.js:3184-3194 | A user callback runs once, in order, and exactly the functions its calls register on the winning side are added. |
| `Deferred.Deferred.RunList` | app/publisher/jquery.js:3182-3195 | The fire reaches the end of the list; what has run is what was waiting and all that was registered meanwhile. |
| `Deferred.Deferred.Finish` | app/publisher/jquery.js:3197-3216 | After the fire the list is emptied and its arguments remembered. |
| `Deferred.Deferred.SettleAs` | app/publisher/jquery.js:3414-3419 | The first resolve or reject settles and runs what waits on its side and what that registers; later ones change nothing at all. |
| `Deferred.Deferred.RunNow` | app/publisher/jquery.js:3222-3250 | Callbacks added to the winning side after settling run at once, once, with the remembered arguments, and so do those they register. |
| `Deferred.Deferred.Register` | app/publisher/jquery.js:3400-3401 | done and fail wait while pending, run at once on the winning side, and are ignored on the losing side. |
| `Deferred.Deferred.Call` | app/publisher/jquery.js:3400-3419 | Any call from outside does to the object what it does in the simple meaning of a Deferred. |
| `Deferred.DrainIsWaitingAndTaken` | app/publisher/jquery.js:3182-3195 | What a fire runs is exactly what was waiting and then what the replies used registered, in order. |
| `Deferred.FirstSettleWins` | app/publisher/jquery.js:3404-3412 | The first settling call of a history is its winner. |
| `Deferred.WinnerAcceptsAll` | app/publisher/jquery.js:3400-3419 | The winning side accepts everything ever registered on it, before or after settling, from outside or by a callback, in order. |
| `Deferred.History` | app/publisher/jquery.js:3341-3432 | Over any history with any re-entrant calls: the first settling call decides the state for good, exactly the functions registered on the winning side have run, each registration once, in order, with the winning arguments, and no callback of the losing side has run. |
| `BlobDiff.ListMissing` | pkg/blobserver/sync.go:30-72 | On sorted enumerations the merge sends exactly the source blobs the destination does not list, in order, and reports exactly those listed with another size; it also says how far it reads the destination. |
| `BlobDiff.DiffMembers` | pkg/blobserver/sync.go:58-70 | The blobs sent are those of refs the destination does not list, the refs reported those it lists with another size. |
| `SyncPass.StepInv` | cmd/pk/sync.go:429-465 | The pass's invariant survives every copy step, whatever fails. |
| `SyncPass.NeverLost` | cmd/pk/sync.go:426-466 | Whatever fetches, uploads and removals fail and however they interleave, every source blob stays or its copy of the same size is where the pass copies to, and every blob already there stays, at its size or the source's. |
| `SyncPass.SyncedExactly` | cmd/pk/sync.go:336-475 | After a pass that returns nil a source blob is, at its size, in the destination (or third leg) if and only if the source's enumeration listed it or it was there before. |
| `SyncPass.NilMeansSynced` | cmd/pk/sync.go:336-475 | However the enumerations and copies interleave, a pass that returns nil leaves every source blob, at its size, in the destination, or in three-leg mode in the destination or the third leg. |
| `SyncEnumerate.StepInv` | cmd/pk/sync.go:344-353 | Every step of every enumeration keeps: the shared context is canceled by every error reported, and canceled, or Canceled returned, only after a failure. |
| `SyncEnumerate.ErrorMeansFailure` | cmd/pk/sync.go:344-353 | However the enumerations interleave, one of them returned an error, and the context was canceled, if and only if one failed on its own account. |
| `SyncEnumerate.LegEnumerates` | cmd/pk/sync.go:311-328 | Each enumeration yields blobs of its store in order, all of them if it returned nil. |
| `SyncPass.EnumerationFailureReported` | cmd/pk/sync.go:356-419 | However the enumerations interleave and cancel one another, if any leg in use returned an error the pass returns the error of a leg that failed itself, although the three checks overwrite one another and skip Canceled. |
| `SyncPass.StatsAreExact` | cmd/pk/sync.go:392-457 | At every point BlobsCopied and BytesCopied count exactly the blobs uploaded and their sizes, and ErrorCount the mismatches reported and the blobs that failed. |
| `SyncPass.ReturnsErrorCount` | cmd/pk/sync.go:468-474 | With all enumerations well, a finished pass returns that number of errors, and nil if and only if it is zero. |
| `SyncPass.SourceAfter` | cmd/pk/sync.go:459-463 | Only blobs the source listed and no other leg did ever leave the source, and only with removeSrc; a pass that returns nil has removed every one of them, and nothing else of the source has changed. |
| `SyncPass.NeededExactly` | cmd/pk/sync.go:405-424 | The blobs copied are exactly those the source listed and neither the destination nor a third leg in use did. |
| `SyncPass.GateHolds` | cmd/pk/sync.go:426-435 | At no time are more copies under way than the gate allows. |
| `SyncPass.CopiesEnd` | cmd/pk/sync.go:429-466 | Every run of copies is bounded, and one that is not finished can go on if the gate admits any. |
| `SyncPass.CanceledAloneIsSilent` | cmd/pk/sync.go:356-360 | Witness for the law's condition: a source enumeration that reports Canceled of its own accord makes a pass return nil with a source blob not copied. |
| `SyncPass.DestinationEnumerationEnds` | cmd/pk/sync.go:376-405 | The wait for the destination's enumeration ends if and only if what the merge leaves unread fits into the channel of 100. |
| `BlobGraph.StepInv` | cmd/pk-get/graph.go:75-127 | The loader's invariant survives every step of every load. |
| `BlobGraph.WaitCount` | cmd/pk-get/graph.go:113-136 | The wait group always equals nodes created minus loads finished, so `Wait` returns if and only if no load is running. |
| `BlobGraph.GraphComplete` | cmd/pk-get/graph.go:129-153 | When `Wait` returns, the nodes are exactly the blobs reachable from the root, each fetched exactly once, with its valid part references in order as edges, every target a node. |
| `BlobGraph.EdgesExactly` | cmd/pk-get/graph.go:95-101 | The edges are the valid refs, each as often as it occurs, and no other. |
| `BlobGraph.EdgesInOrder` | cmd/pk-get/graph.go:89-92 | They are in the order of the parts. |
| `BlobGraph.LoadingEnds` | cmd/pk-get/graph.go:75-136 | Over finitely many reachable blobs every run is bounded and goes on until `Wait` returns. |
| `ZipNames.RenamedInjective` | app/publisher/zip.go:194-205 | Different suffix numbers give different names. |
| `ZipNames.ExtMeans` | app/publisher/zip.go:198-198 | The extension starts at the last dot of the last path element and is empty if that has none. |
| `ZipNames.RenamedKeeps` | app/publisher/zip.go:198-200 | A renamed file keeps its extension and all that was before it. |
| `ZipNames.TakenBound` | app/publisher/zip.go:194-205 | The candidates tried in vain are no more than the names in use, so the search ends. |
| `ZipNames.FreshName` | app/publisher/zip.go:194-205 | The search ends at the first free suffix. |
| `ZipNames.AssignNames` | app/publisher/zip.go:188-209 | Every file gets a name nobody has; the first of a path keeps it. |
| `ZipNames.Entries` | app/publisher/zip.go:211-215 | The list made from the map has each of its entries once. |
| `ZipNames.RenameDuplicates` | app/publisher/zip.go:188-218 | On every input: strictly sorted distinct paths, a permutation of the files under their new names (so the same number of files and multiset of blobrefs), and every input path still the path of some file. |
| `HopPaths.SplitMarked` | app/publisher/main.go:669-674 | A clean suffix followed by the mark is split exactly there. |
| `HopPaths.SplitUnclean` | app/publisher/main.go:669-674 | A suffix that is not clean never comes back from its own path. |
| `HopPaths.ParsePrinted` | app/publisher/main.go:790-809 | Printed hops are parsed back exactly, in order, and what follows them is left. |
| `HopPaths.ParseAfterMark` | app/publisher/main.go:790-809 | Also when the mark has taken the first slash. |
| `HopPaths.SubjectPathStep` | app/publisher/main.go:826-834 | Adding the matched text as a path component extends the path by that hop, with the mark before the first one only. |
| `HopPaths.SubjectPathMore` | app/publisher/main.go:1083-1091 | Going on printing from a subject's path gives the path of the longer chain. |
| `HopPaths.ReadBack` | app/publisher/main.go:665-687 | A path printed with at least one hop is split and parsed back to its suffix, hops and rest if and only if base and suffix hold nothing like the mark and the suffix does not end in a slash. |
| `PublishRequest.Request.constructor` | app/publisher/main.go:665-687 | A request starts with the suffix and subresource of its path below the base. |
| `PublishRequest.Request.FindSubject` | app/publisher/main.go:761-813 | The chase follows exactly the hops at the front of the subresource from the published path's target, fails with the first failing hop, and leaves subject, chain, rest and path of the subjects met; static and zip requests are served without it. |
| `PublishRequest.Request.Chase` | app/publisher/main.go:786-812 | The hop loop ends because the subresource shrinks, and arrives where following all hops leads. |
| `PublishRequest.Request.SubresThumbnailURL` | app/publisher/main.go:1077-1099 | The URL is that of the chain followed by the members of the path not yet in it, then the resource type and name. |
| `PublishRequest.NewHopsName` | app/publisher/main.go:1087-1092 | Each new hop is the first ten digits of the digest of a member not yet in the chain, or all if there are fewer, in order. |
| `PublishRequest.NewcomersExactly` | app/publisher/main.go:1087-1092 | The members given hops are exactly those of the path not in the chain, as often as they occur. |
| `PublishRequest.Request.MemberPath` | app/publisher/main.go:1197-1199 | A member's path is its subject's with one more hop. |
| `PublishRequest.ThumbnailReadBack` | app/publisher/main.go:1077-1099 | The exact condition for a printed URL to be read back as the same suffix, hops and resource: some hop, and a clean base and suffix. |
| `PublishRequest.NoHopsLost` | app/publisher/main.go:815-820 | Without a hop the URL loses its suffix or its resource type, for every base, suffix, type and name. |
| `PublishRequest.Revisit` | app/publisher/main.go:665-820 | Requesting a printed URL finds the end of the longer chain and resource type f for a download or i for an image, or fails where following the chain fails. |
| `Lru.HoldsMostRecent` | internal/lru/cache.go:59-118 | After any history the keys held are the most recently touched ones, in order, up to the maximum. |
| `Lru.PresentIff` | internal/lru/cache.go:59-118 | A key is present if and only if it was touched and fewer than N other keys were touched since. |
| `Lru.ValueIsLastAdded` | internal/lru/cache.go:59-118 | A key present has the value last added for it. |
| `Lru.Cache.constructor` | internal/lru/cache.go:43-57 | A new cache is empty. |
| `Lru.Cache.InCache` | internal/lru/cache.go:26-39 | The map and the linked list hold the same keys with the same values. |
| `Lru.Cache.MoveToFront` | internal/lru/cache.go:68-72 | Moving an element changes the order only. |
| `Lru.Cache.Add` | internal/lru/cache.go:61-81 | Adding puts the key first with the new value and evicts the oldest when there is no room. |
| `Lru.Cache.Get` | internal/lru/cache.go:85-95 | Getting answers with the stored value and makes a hit the most recent. |
| `Lru.Cache.RemoveOldest` | internal/lru/cache.go:99-118 | The least recently touched pair is removed and returned. |
| `Lru.Cache.Len` | internal/lru/cache.go:121-127 | The length is that of list and map alike. |
| `Lru.History` | internal/lru/cache.go:43-118 | After any history the object holds what the reference meaning says. |
| `Orientation.SeenIsBijective` | internal/images/images.go:91-99 | Every visual position shows exactly one stored pixel. |
| `Orientation.ConfigIsVisual` | internal/images/images.go:441-446 | The size announced before decoding is that of the upright picture. |
| `Orientation.Rotate` | internal/images/images.go:160-192 | Each turn puts every source pixel where a rotation by that angle does, in a new image; other angles give the image back. |
| `Orientation.Turn` | internal/images/images.go:163-188 | The nested loops set every pixel of the turned image. |
| `Orientation.FlipColumns` | internal/images/images.go:220-228 | Swapping in place over half the columns mirrors every row, odd widths included. |
| `Orientation.FlipRows` | internal/images/images.go:229-237 | Swapping in place over half the rows mirrors every column, odd heights included. |
| `Orientation.Flip` | internal/images/images.go:198-242 | The flip mirrors in the directions asked for, both included. |
| `Orientation.Correct` | internal/images/images.go:602-610 | Rotating and then flipping, by any forced or read angle and flip, looks each pixel up in the original, and reports whether anything was asked. |
| `Orientation.TurnedBack` | internal/images/images.go:519-561 | The angle and flip chosen for a value look up, where TIFF 6.0 says a stored pixel is seen, exactly that pixel. |
| `Orientation.Upright` | internal/images/images.go:568-617 | For every size and every EXIF value the decoded image is the one the Orientation field of section 8 of TIFF 6.0 defines, its size is the one DecodeConfig announces, and it is marked modified for values 2 to 8 only. |
| `RollsumSpans.AllCutsTile` | cmd/pk/splits.go:47-80 | The stretches between splits tile the file without gap, overlap or empty stretch. |
| `RollsumSpans.AllCutsEnd` | cmd/pk/splits.go:47-77 | The stretches end exactly at the splits, with their bits, and at the end of the file. |
| `RollsumSpans.Split` | cmd/pk/splits.go:62-76 | A split takes the spans of fewer bits as its children and keeps the stack ordered by bits and its listing in file order. |
| `RollsumSpans.BuildSpans` | cmd/pk/splits.go:36-82 | For any split points the post-order listing of the tree is the file's stretches in file order and tiles the file; children have strictly fewer bits than their parent, and siblings' bits never increase. |
| `RollsumSpans.OnlyOneTree` | cmd/pk/splits.go:62-76 | A file's splits admit only one tree with that order. |

## Left out

- Disk-usage mode, rootless uploads, Android status lines, the ticker and `log.Fatal` on errors in cmd/pk-put/files.go: more branches, no harder law.
- What uploading one file or directory does (cmd/pk-put/files.go:375-700): a function of the file's information and of the members' blobrefs.
- `NewWorker` with zero workers panics at once and is not modelled; the bounded pool has at least one worker.
- Integer widths: counters, sizes and file offsets are unbounded, except the 32-bit size in stat-cache values.
- TreeScanCache.ScanSkipsExactly: file names are non-empty and have no slash, as file systems promise.
- Path cleaning, blobref marshalling and the byte form of strings are parameters of `StatCache`, with the inverse laws their documentation gives.
- `sort.Sort` is replaced by an insertion sort with the same contract.
- In jQuery: nested argument arrays of `add`, `empty`, `lock`, `disable` by a callback of the same list, `then`, `when`, progress callbacks, callbacks that throw, and selector parsing. The attributes a plain selector tests are a parameter.
- Callbacks.PassRunsEachOnce: entries carry a registration number to tell equal functions apart; the source stores the function only.
- The stdout and wipe modes and verbose logging of `pk sync`, and the page-by-page enumeration behind its channels.
- SyncPass.NilMeansSynced: an enumeration reports Canceled only when the shared context has been canceled, and only the pass cancels it; SyncedExactly needs neither.
- SyncEnumerate.LegEnumerates: sends are not limited by the channels' capacity; what that blocks is the subject of SyncPass.DestinationEnumerationEnds.
- BlobDiff.ListMissing: enumerations are sorted, as blob servers promise; invalid references end the merge early, and then only the part sent so far is claimed.
- Fetch errors end pk-get's process; the dot output of the graph is not modelled.
- The traversal of permanodes and directories behind a zip, and the zip file itself.
- Escaping and decoding of URLs, query parsing and everything after the subject is found in app/publisher/main.go; a file name is the path element it decodes to.
- PublishRequest.Request.FindSubject: after an error only the error is stated; the request is then answered and its fields are not read.
- Orientation.Rotate: pixels are copied as they are; conversion between colour models is not modelled.
- Orientation.Flip: the branch that copies a YCbCr image instead of flipping in place is not modelled, nor are images whose bounds do not start at (0, 0).
- Rescaling, HEIC conversion and the fast JPEG path in internal/images/images.go.
- The rolling checksum itself: split points and their bits are an arbitrary input of `RollsumSpans`.
- HTTP, TLS, signing, search, LevelDB, FUSE, devcam and the build scripts: plumbing around the logic above.
