# A verified model of the walk crawler

This project models the crawl coordinator of qri-io/walk and the components around it in Dafny and
proves what they guarantee, over all runs. `dafny verify dfyconfig.toml` checks everything.

## What is modelled

**The coordinator as objects** (`CoordinatorSpec.dfy`, `Coordinator.dfy`). `Request`, `MemRequestStore`,
`MemQueue`, `Job`, `MemResourceHandler` and `Coordinator` are heap classes with the Go code's loops and
branches. The store and the queue share references to the same `Request` objects, and a result is recorded
by updating the stored object in place. Every method's contract equates its new state with a function of
the old one; these functions are what the crawl is built from. A call that blocks on the shutdown channel
is left where it is: the contracts say when it blocks and what it still has in hand (`Halting.dfy` says it
in terms of the call's results).

**A crawl as a state machine** (`Crawl.dfy`, `CrawlClosure.dfy`, `CrawlOutcome.dfy`,
`CrawlTermination.dfy`). Seeds are read, workers pop requests and report batches of results, handler
goroutines run, counter changes are applied, the done scan fires, someone shuts down. `CompletedResources` and
`enqueue` are one step each, up to where a call blocks; a call blocked in `Shutdown` goes on in a later step once
it has been let through. Reports obey the worker contract: each answers a request in flight, with its
URL and job. The contract can be broken by losing a completion (the event `Lose`), which is what the
real worker does on a fetch error, a parse failure or a failed send.

**The same coordinator under full interleaving** (`Interleaving.dfy`, `ShutdownProtocol.dfy`, `Races.dfy`,
`RetryBudget.dfy`, `InterleavedClosure.dfy`, `WorkerContract.dfy`, `DoneDetection.dfy`, `Atomicity.dfy`,
`Uninterrupted.dfy`, `ScanProtocol.dfy`). Any number of goroutines inside `CompletedResources`, `enqueue`, `dequeue`,
`Shutdown`, the seed loop and the done scan, each advancing by one access to shared state at a time, with the change
channel's capacity of 8 and the rendezvous on the shutdown channel. Here workers may report anything;
`WorkerContract.dfy` adds the contract where a result needs it. Three files tie the two machines together.
`Uninterrupted.dfy` shows that every run of a call that nobody interferes with, from any state and with any results,
to where it has returned or is blocked, ends where the atomic specification says it does and leaves the data it says,
for some order of its links. `ScanProtocol.dfy` shows the same of a done scan and of a `Shutdown` that are left alone.
`Atomicity.dfy` shows that from a state with no counter change pending there is such a run for every order.

**The components around it.** Candidate selection (`Job.dfy`), the 150-slot queue with its forwarders
(`Forwarders.dfy`), prefix scans and name spaces on one Badger database (`KeySpace.dfy`, `Sitemap.dfy`),
redirect resolution (`Redirects.dfy`), the worker's round robin (`Dispatch.dfy`), link extraction
(`Links.dfy`) and header flattening (`Headers.dfy`).

Foreign code enters as parameters: `url.Parse`, URL normalization, href resolution, the JSON codec (with
the assumption that decoding undoes encoding), the decoding of stored requests, `collection.Get` as a function of
the URL, and the sorted key order of a Badger iterator. One job is modelled, as the code only ever makes job "1".
Byte strings are Dafny strings, one `char` per byte.

## Findings

- `MaxAttempts` allows one fetch more than the comment on it says: a URL that is given up has been fetched
  MaxAttempts + 1 times (`GivenUpAfterOneMoreThanTheLimit`), and for every MaxAttempts from 0 on there are such
  runs (`SomeSeedIsFetchedOnceMoreThanTheLimit`). The model follows the code.
- The loop over stored requests in the done scan decides nothing. When `CompletedResources` is not interrupted and
  no counter change is pending, the rest of the test implies what the loop was meant to check
  (`ScanSeesFinishedRequests`); with one pending it can fire too early (`ScanIsRightIff`, `ScanCanFireTooEarly`).
- Under interleaving the queue and the counter are not enough, since a parent's -1 is sent before its children's +1
  (`ScanFiresBetweenParentAndChild`). The scan is right exactly when the counter cancels against the changes still to
  be applied and to be sent, and no goroutine has a push ahead of it (`ScanIsRightUnderInterleavingIff`).
- Shutting down over an empty queue with requests in flight cuts their reports short: the first result taken back
  blocks its call on the shutdown channel for good (`WaitingCallsWaitForGood`), so its links and the results after it
  are never seen to (`HaltedCallsLeaveLinksBehind`). The stored URLs are the least closed set exactly when no blocked
  call holds a link that is not stored (`StoreIsLeastClosedIff`).
- The handlers are finalized over an empty queue when calls are not interrupted (`FinalizersRunOverAnEmptyQueue`).
  Under interleaving, raising the stop flag is safe exactly when no goroutine is between its test of the flag and its
  push at that moment, whatever is queued (`RaisingIsSafeIff`), and a crawl can get to where it is not
  (`SomeShutdownStrandsARequest`).
- The finalizers do not wait for started handler calls: a handler is complete exactly when none of its calls is still
  to run (`HandlerIsCompleteIff`), and it can be finalized before (`FinalizersCanRunTooEarly`).
- "Enqueued at most once" holds exactly for the URLs that no lookup misses between another's lookup and store
  (`EnqueuedAfreshAtMostOnceIff`); two seeds with a link to the same new page can get it pushed twice
  (`SomeLinkIsPushedTwice`). Finding exactly the reachable pages does not depend on it
  (`StoreIsLeastClosedUnderInterleaving`), and what a URL costs stays bounded (`EachUrlIsPushedAtMost`).
- A lost completion keeps a crawl at rest, with no counter change pending, from being detected as done
  (`RestIsDetectedIff`, `SomeLossIsNeverDetected`). Before the +1 of the lost request has been applied the scan can
  still fire.
- A link that redirects elsewhere is answered twice, for the redirect and for the page, so the counter can fall below 0
  (`SomeScanFiresBelowZero`). The scan fires all the same: over a crawl at rest it fires exactly when no more requests
  were pushed than results taken back, whatever was reported (`ScanAtRestFiresIff`).
- A result for a URL the store does not know, as of the page a link redirected to, is not stored if it is a success; if
  it is a failure it is queued again without the job's ID, and what comes back for that is ignored (`StrayResults`).
- A generator with a sitemap prefix that starts with "rs." misreads stored requests as sitemap entries or fails on
  them (`RequestPrefixMisreads`). `ListRequests` of the memory store lists everything for a limit of 0 and nothing for
  a positive offset.
- Only the first configured domain of a host counts (`LaterDomainsOfAHostAreDead`).

## Model

| member | source | states |
|---|---|---|
| JobRules.UrlStringIsCandidate | lib/job.go:250-271 | decides `Candidate`, which the next three rows say in terms of the link's text, host and path |
| JobRules.CandidateMeans | lib/job.go:250-271 | a link is a candidate iff it cannot be cut up around an ignore pattern, it parses, and the first domain with its host has a path that its own path goes on from (or its path is empty) |
| JobRules.LinksBelowTheDomain | lib/job.go:251-269 | with one domain: the domain's path followed by anything is followed, the bare host too; another path, another host, a link that does not parse, or one with an ignored text anywhere in it is not |
| JobRules.ContainsMeans | lib/job.go:252 | a pattern occurs in a string iff the string is something, the pattern, and something |
| JobRules.LaterDomainsOfAHostAreDead | lib/job.go:260-269 | listing a host again with another path changes no verdict |
| JobRules.IgnoringIsAntitone | lib/job.go:251-255 | an added ignore pattern rejects exactly the candidates that contain it; the empty pattern rejects all |
| JobRules.Seeds | lib/job.go:184-235 | the seed channel yields the configured seeds, then the lines of the seeds file; a seeds path that cannot be read yields an error and no seeds |
| CoordinatorSpec.UnattributedResultsAreIgnored | lib/coordinator.go:281-286 | results without the job's ID, as the worker's error handler sends, change nothing, so their requests stay outstanding |
| CoordinatorSpec.StrayResults | lib/coordinator.go:330-387 | a result for a URL the store does not know is counted but not stored in 200..308, and else queued again under an empty job ID, whose results change nothing |
| CoordinatorHeap.MemRequestStore.PutRequest | lib/request_store.go:34-39 | replaces one URL's reference and keeps every request under its own URL |
| CoordinatorHeap.MemRequestStore.GetRequest | lib/request_store.go:42-51 | yields the stored object itself, or nothing |
| CoordinatorHeap.MemRequestStore.Replaced | lib/request_store.go:34-51 | as no object is stored twice, storing or changing one request changes one record of the store and no other |
| CoordinatorHeap.MemRequestStore.ListRequests | lib/request_store.go:56-73 | every stored request when the limit is not reached, exactly `limit` of them otherwise, all for a limit of 0 or less, none for a positive offset |
| CoordinatorHeap.MemQueue.Push | lib/queue.go:40-43 | appends to the channel (its capacity is the subject of `Forwarders`) |
| CoordinatorHeap.MemQueue.Pop | lib/queue.go:50-54 | removes the oldest request |
| CoordinatorHeap.MemResourceHandler.HandleResource | lib/resource_handler.go:194-196 | appends the resource |
| CoordinatorHeap.Coordinator.Enqueue | lib/coordinator.go:314-328 | the whole new coordinator state: refused and stored as failed while stopping, else stored as queued, pushed and announced with +1 |
| CoordinatorHeap.Coordinator.Dequeue | lib/coordinator.go:330-388 | the whole new state after a result and whether the call goes on: attempt counted through the shared object, then done (with one call per handler and no put), tried again or failed, then the deferred part; `finished` rises iff the status is in 200..308 |
| CoordinatorHeap.Coordinator.Defer | lib/coordinator.go:348-366 | sends -1; stopping over an empty queue, receives from a blocked `Shutdown` or blocks; then shuts down on the stop URL, blocking if requests are queued |
| CoordinatorHeap.Coordinator.MarkDone | lib/coordinator.go:369-379 | the done status reaches the store by aliasing alone |
| CoordinatorHeap.Coordinator.VisitLink | lib/coordinator.go:301-309 | a link is enqueued iff the store does not know it |
| CoordinatorHeap.Coordinator.TakeResults | lib/coordinator.go:278-298 | results are taken in order up to the first whose `dequeue` blocks, and the links collected are exactly the candidate links of the job's own results among those |
| CoordinatorHeap.Coordinator.CompletedResources | lib/coordinator.go:261-312 | the new state is the specified one for some order of visiting each collected link once; a call that blocks keeps the results after that point and its links, and visits none |
| CoordinatorHeap.Coordinator.ResumeCall | lib/coordinator.go:230-247 | a call that blocked in `Shutdown` and was let through finalizes the handlers and goes on with the results and links it kept |
| CoordinatorHeap.Coordinator.Seed | lib/coordinator.go:174-178 | a seed is enqueued with a blank record, whatever the store knows about it |
| CoordinatorHeap.Coordinator.DoneScan | lib/coordinator.go:188-213 | fires iff the queue is empty and the counter is at most 0, whatever the stored statuses |
| CoordinatorHeap.Coordinator.Shutdown | lib/coordinator.go:228-248 | sets the flag; blocks iff the queue is not empty, else finalizes |
| CoordinatorHeap.Coordinator.FinishShutdown | lib/coordinator.go:235-247 | a blocked call that was let through finalizes |
| CoordinatorHeap.Coordinator.TakeRequest | lib/queue.go:50-54 | a worker takes the oldest queued request, as the crawl's Pop step does |
| CoordinatorHeap.Coordinator.ApplyChange | lib/coordinator.go:78-87 | moves the oldest change from the channel to the counter |
| CoordinatorHeap.Coordinator.RunCall | lib/coordinator.go:375-377 | one started handler call delivers its resource to its handler |
| Crawl.CompleteIsCompletedResources | lib/coordinator.go:261-312 | the crawl's Complete step does to the coordinator what the method `CompletedResources` is proved to do |
| Crawl.ResumeIsResumeCall | lib/coordinator.go:230-247 | the crawl's Resume step does to the coordinator what the method `ResumeCall` is proved to do |
| Halting.UndisturbedCallsReturn | lib/coordinator.go:348-366 | a call returns if no shutdown is under way or requests are queued, and no result is for the stop URL |
| Halting.DrainedCallsReturnIff | lib/coordinator.go:351-356 | while stopping over an empty queue a call returns iff there is a blocked `Shutdown` for each of its results, and else waits to receive |
| Halting.DrainedCallsTake | lib/coordinator.go:351-356 | it then looks at one result per blocked `Shutdown`, and one more |
| Halting.StopUrlBlocksIff | lib/coordinator.go:358-365 | the first result for the stop URL sets the flag, and blocks iff requests are queued by then |
| Crawl.RunKeeps | lib/coordinator.go:261-388 | after every run: conservation of copies per URL, the counter ledger, status coherence, the retry budget, the delivery tally, and who can be blocked on the shutdown channel |
| CrawlOutcome.StatusIsCoherent | lib/coordinator.go:314-388 | per stored URL, pushes = queued + in flight + lost + completed; queued means a copy is outstanding; done means the last result was in 200..308; failed means attempts exhausted or refused while stopping, and, unless the record is blank, that the last result was below 200 or above 308 |
| CrawlClosure.StoreIsLeastClosedIff | lib/coordinator.go:278-309 | once all seeds are read the stored URLs are the least set containing the seeds and closed under candidate links of the results taken back, iff no call blocked by a shutdown holds a link that is not stored; before a shutdown no call is blocked |
| CrawlClosure.HaltedCallsLeaveLinksBehind | lib/coordinator.go:351-355 | for any seed and candidate link there is a run, shut down over an empty queue, in which the stored URLs are not closed |
| CrawlClosure.CrawlFindsTheReachablePages | lib/coordinator.go:173-178 | a crawl of a fixed link graph that comes to rest without shutdown has stored exactly the pages reachable from the seeds by candidate links |
| CrawlClosure.WithoutCrawlingOnlySeedsAreStored | lib/coordinator.go:289 | with crawling off, the stored URLs are exactly the seeds |
| LinkClosure.LeastClosedIsReachable | lib/coordinator.go:301-309 | the least closed set, with every page in it answered, is the set of URLs at the end of a path from a seed |
| CrawlOutcome.ScanIsRightIff | lib/coordinator.go:188-213 | when the scan fires nothing is in flight iff the pending changes cancel the counter; an empty channel suffices |
| CrawlOutcome.ScanSeesFinishedRequests | lib/coordinator.go:195-204 | when the scan fires with no change pending, every stored request is done or has failed for good |
| CrawlOutcome.RestIsDetectedIff | lib/worker.go:131-135 | a crawl at rest with no change pending is detected as done iff no completion was lost |
| CrawlOutcome.SomeLossIsNeverDetected | lib/worker.go:131-135 | for every seed there is a run that comes to rest with its completion lost, and is not detected |
| CrawlOutcome.ScanCanFireTooEarly | lib/coordinator.go:205-211 | for every seed there is a run in which the scan fires with that seed in flight |
| CrawlOutcome.PushesAreBounded | lib/coordinator.go:381-384 | `CompletedResources` enqueues a URL afresh at most once per run; its pushes never exceed (1 + its multiplicity among the seeds) * (MaxAttempts + 1) |
| CrawlOutcome.PushesCoverSeeds | lib/coordinator.go:174-178 | before a shutdown a URL is pushed at least once for each time it was read as a seed and once if it was found as a new link |
| CrawlOutcome.GivenUpAfterOneMoreThanTheLimit | lib/config.go:116-117 | a URL enqueued once and given up was pushed and completed exactly MaxAttempts + 1 times |
| CrawlOutcome.SomeSeedIsFetchedOnceMoreThanTheLimit | lib/coordinator.go:381-387 | for every MaxAttempts from 0 on, every seed but the stop URL and every status below 200 or above 308 there is a run whose results all have that status and that gives the seed up after MaxAttempts + 1 pushes |
| CrawlOutcome.SomeSeedIsDoneAtOnce | lib/job.go:273-275 | for every seed but the stop URL and every status in 200..308 there is a run in which one result with that status makes it done after one push |
| CrawlOutcome.SomeLinkAttainsTheBound | lib/coordinator.go:381-387 | the bound of `PushesAreBounded` is attained, by a link found once and given up |
| CrawlOutcome.StoppingDrains | lib/coordinator.go:314-320 | once stopping, no step pushes, the queue only loses its head, and each report lowers queued plus in flight by the number of results its call gets to look at; over an empty queue that is one per blocked `Shutdown` and one more |
| CrawlOutcome.EmptyStaysEmpty | lib/coordinator.go:351-356 | a queue seen empty while stopping is empty ever after |
| CrawlOutcome.FinalizersRunOverAnEmptyQueue | lib/coordinator.go:228-248 | on every path, by the done scan, the stop URL or an outside call, directly or through the channel, the handlers are finalized over an empty queue and nothing is pushed from then on |
| CrawlOutcome.WaitingCallsWaitForGood | lib/coordinator.go:351-355 | a call that waits to receive on the shutdown channel does so in every continuation: nobody will send |
| CrawlOutcome.EveryHandlerHoldsEverySuccess | lib/coordinator.go:369-379 | when all handler calls have run, each handler holds each result with a status in 200..308 exactly as often as it was taken back and no other, `finished` of them in all |
| CrawlOutcome.HandlerIsCompleteIff | lib/coordinator.go:360-377 | at every moment, and so at finalization, a handler holds all successful results iff none of its started calls is still to run |
| CrawlOutcome.FinalizersCanRunTooEarly | lib/coordinator.go:360-365 | for every seed there is a run that finalizes a handler before the seed's successful result reaches it |
| CrawlTermination.StepSpends | lib/coordinator.go:301-309 | every step of a crawl over finitely many URLs, other than an empty report or a repeated stop, lowers a non-negative potential |
| CrawlTermination.RunsAreBounded | lib/coordinator.go:339-387 | hence any run has at most 2 + seeds * (1 + (MaxAttempts + 1) * (5 + handlers)) + URLs * (MaxAttempts + 1) * (5 + handlers) steps |
| CrawlTermination.FetchesAreBounded | lib/coordinator.go:381-387 | with distinct seeds read first, at most number of URLs * (MaxAttempts + 1) pushes in all |
| Interleaving.LedgerHolds | lib/coordinator.go:322-349 | in every interleaving and for any reports: counter + changes in the channel + changes owed by goroutines = pushes - results taken up |
| Interleaving.ChannelHoldsEight | lib/coordinator.go:73 | in every interleaving the channel of changes holds at most 8, and a goroutine about to send on it is held up iff it holds 8 |
| Interleaving.CounterIsExactAtRest | lib/coordinator.go:78-87 | with nothing owed and the channel empty, the counter is pushes minus results |
| ShutdownProtocol.LatePushesComeFromMidPush | lib/coordinator.go:314-326 | once the flag is set a push can still happen iff some goroutine had already passed its test of the flag |
| ShutdownProtocol.HandlersAreFinalizedOverAnEmptyQueue | lib/coordinator.go:228-248 | if the flag is only raised with nobody mid-push, every goroutine that gets to the finalizers, directly or through the rendezvous, finds the queue empty, and nothing can be pushed any more |
| ShutdownProtocol.RaisingIsSafeIff | lib/coordinator.go:230-236 | in every reachable state, setting the flag now allows a run that finalizes the handlers over a request in the queue iff some goroutine has passed its test of the flag and not pushed yet |
| ShutdownProtocol.SomeShutdownStrandsARequest | lib/coordinator.go:230-236 | for every seed there is a run from the start that finalizes over a request in the queue |
| DoneDetection.CrawlIsOverIff | lib/coordinator.go:188-213 | in every interleaving by workers that keep their contract, before a shutdown: no result is ever looked at and no request pushed again without new seeds, iff counter, pending changes and owed changes cancel and no goroutine has a push ahead of it |
| DoneDetection.ScanIsRightUnderInterleavingIff | lib/coordinator.go:205-211 | the done scan that reads the counter shuts down iff it is not positive, and is right to iff pending and owed changes make up for the counter and no goroutine has a push ahead of it |
| ScanProtocol.ScanAloneIsDoneScan | lib/coordinator.go:188-213 | every run of a scan that is left alone ends in what the specification of `DoneScan` says: it finalizes iff the queue is empty and the counter at most 0, and else changes nothing |
| ScanProtocol.ShutdownAloneIsRaised | lib/coordinator.go:228-248 | every run of a `Shutdown` that is left alone ends in what its specification says, blocked iff requests are queued |
| ScanProtocol.ScanAtRestFiresIff | lib/coordinator.go:205-211 | whatever workers report: a scan left alone with no change pending or owed shuts down iff the queue is empty and no more requests were pushed than results taken back |
| ScanProtocol.SomeScanFiresBelowZero | lib/worker.go:197-218 | a seed that redirects to another page, both answered, leaves the counter at -1 in some run, and the scan shuts down |
| Races.ScanFiresBetweenParentAndChild | lib/coordinator.go:348-349 | in any crawl with a link to follow the scan can decide to shut down before the link is looked up |
| Races.EnqueuedAfreshAtMostOnceIff | lib/coordinator.go:301-309 | in every interleaving, the loops over links enqueue a URL afresh at most once iff no lookup misses it between another's lookup and store |
| Races.TwoLookupsPushTwice | lib/coordinator.go:301-308 | two goroutines that look a new link up before either stores it can both push it, from any state |
| Races.SomeLinkIsPushedTwice | lib/coordinator.go:301-308 | there is a run from the start, by workers that keep their contract, in which two seeds that link to the same new page get it pushed twice |
| RetryBudget.EachRequestIsPushedAtMost | lib/coordinator.go:339-387 | in every interleaving and for any reports, one request object is pushed at most MaxAttempts + 1 times |
| RetryBudget.EachUrlIsPushedAtMost | lib/coordinator.go:301-387 | and one URL at most that often for each time it is taken from the seeds, missed by the link loop or not found by `dequeue` |
| InterleavedClosure.StoreIsLeastClosedIffHandsAreEmpty | lib/coordinator.go:261-328 | in every interleaving and at every moment, with or without shutdown, the store is the least closed set iff every URL some goroutine is still going to see to is stored |
| InterleavedClosure.StoreIsLeastClosedUnderInterleaving | lib/coordinator.go:261-328 | so it is once all goroutines have returned |
| WorkerContract.InterleavedCrawlFindsTheReachablePages | lib/coordinator.go:301-309 | in every interleaving of a crawl of a fixed link graph by workers that keep their contract: at rest without shutdown, exactly the reachable pages are stored |
| WorkerContract.HistorySane | lib/coordinator.go:314-388 | then every push is queued, with a worker, handed to a goroutine or looked at, per URL, and pushed URLs are stored |
| Uninterrupted.EveryUninterruptedCallIsCompleted | lib/coordinator.go:261-388 | every run of a call that nobody interferes with, to where it has returned or is blocked, leaves the data of the atomic specification for some order of the links, and the call returned or blocked as that says |
| Uninterrupted.EveryResumedCallIsCompleted | lib/coordinator.go:230-247 | the same of a call that blocked in `Shutdown` and was let through |
| Atomicity.UninterruptedCallIsCompleted | lib/coordinator.go:261-388 | conversely, from any state with no counter change pending some run leads a call there, for every order of its links |
| Atomicity.ResumedCallIsCompleted | lib/coordinator.go:230-247 | the same for a call that blocked in `Shutdown` and was let through |
| Forwarders.RequestsAreConserved | lib/queue.go:62-72 | pushed = received + held (at most one per forwarder) + buffered (at most 150), as multisets, at every step; a push is held up iff 150 are buffered |
| Forwarders.BufferFills | lib/queue.go:32-38 | the buffer takes every number of requests up to 150 |
| Forwarders.WorkersSeePushOrder | lib/queue.go:62-72 | what one worker receives is a subsequence of the push order |
| Forwarders.OneForwarderIsFifo | lib/queue.go:12-14 | with a single forwarder the queue is exactly first in, first out |
| KeySpace.Scan | lib/sitemap.go:90 | seek and advance visit a contiguous run of the sorted keys, made of exactly the keys with the prefix |
| KeySpace.LessMeans | lib/sitemap.go:90 | the order of keys is that of their bytes: after a common start, the one that ends first or goes on with the smaller byte |
| KeySpace.PrefixIsAnInterval | lib/sitemap.go:90 | keys between a prefix and a key with that prefix have it too |
| KeySpace.MeetsMeaning | lib/sitemap.go:71-81 | a key of one space can be mistaken for another's iff one prefix extends the other |
| KeySpace.ScanSeesOwnLastWrites | lib/sitemap.go:84-104 | the scan of a space that meets no other yields exactly the last value written to each name, in whatever order writes came |
| KeySpace.MeetingSpacesLeak | lib/sitemap.go:79-81 | for two different spaces that meet, one write to the other can show up in the scan |
| Sitemap.SitemapGenerator.HandleResource | lib/sitemap.go:33-59 | writes the entry under prefix, ":" and normalized URL and nothing else, or nothing if normalization, encoding or the database update fails |
| Sitemap.SitemapGenerator.Generate | lib/sitemap.go:84-108 | exactly the names behind prefix and ":" among the keys, each with its decoded value, or failure iff one does not decode |
| Sitemap.BadgerRequestStore.PutRequest | lib/request_store.go:89-117 | writes under "rs." and the URL |
| Sitemap.BadgerRequestStore.GetRequest | lib/request_store.go:119-136 | reads under "rs." and the URL, or finds nothing |
| Sitemap.BadgerRequestStore.ListRequests | lib/request_store.go:140-163 | the decoded values of all request keys, each once, in key order, whatever limit and offset are; an error iff one of them does not decode |
| Sitemap.ColonFreeSpacesMeetOnlyIfEqual | lib/sitemap.go:79-81 | colon-free prefixes give spaces that meet only if they are equal |
| Sitemap.MeetsRequestsIff | lib/request_store.go:89-95 | some key of a generator can be that of a request iff the generator's prefix starts with "rs." |
| Sitemap.GenerateYieldsOwnLastEntries | lib/sitemap.go:33-105 | with good prefixes, each generator yields exactly the last entry it handled per normalized URL, under any interleaving of all writes |
| Sitemap.RequestsReadBackLastPuts | lib/request_store.go:98-135 | the request store reads back exactly the last request put per URL, if no prefix starts with "rs." |
| Sitemap.ContentsFollowTheMethods | lib/sitemap.go:49-54 | the database contents those results speak of are what the writing methods produce |
| Sitemap.RequestPrefixMisreads | lib/request_store.go:93-95 | with a prefix that starts with "rs." a stored request can make `Generate` yield something other than the generator's own last entries, or fail |
| Redirects.ResolvedResource | api/collection_handlers.go:168-187 | at most 20 lookups; the outcome is that of the recursive "follow RedirectTo" specification |
| Redirects.ResolveMeaning | api/collection_handlers.go:166-187 | a page iff the chain ends within 19 redirects, the lookup error iff it breaks off within 19, the limit error iff there are 20 |
| Redirects.CyclesAreErrors | api/collection_handlers.go:175-182 | every cyclic chain ends in the limit error |
| Redirects.LimitMeansCycle | api/collection_handlers.go:178-181 | on a collection of fewer than 20 URLs the limit error means a cycle, and conversely |
| Redirects.LongChainsAreRefused | api/collection_handlers.go:164-166 | the bound is sharp: an acyclic chain that ends after 20 redirects is refused |
| Dispatch.LocalWorker.Dispatch | lib/worker.go:94-106 | an accepted command goes to the queue whose turn it is; a dropped one moves nothing |
| Dispatch.DealtInTurn | lib/worker.go:102-106 | the k-th command of queue j is number j + k * p of all sent |
| Dispatch.QueueShares | lib/worker.go:92-106 | after n sends over p queues, queue j has exactly (n + p - 1 - j) / p commands |
| Dispatch.EvenDispatch | lib/worker.go:92-106 | any two queues differ by at most one |
| Links.Resource.ExtractDocLinks | lib/resource.go:161-188 | after the old links, which stay in front, exactly the URLs that some href resolves to, each in the place of the first href that does; nothing if the page's URL does not parse |
| Links.AppendNewElements | lib/resource.go:176-184 | the de-duplicated appending holds exactly the prior links and the appended ones |
| Links.AppendNewHasNoDuplicates | lib/resource.go:177-182 | duplicate-free iff the prior links were |
| Links.FirstOccurrencesKeepOrder | lib/resource.go:168-185 | links stand in the order of their first occurrence |
| Links.ExtractedInOrder | lib/resource.go:168-185 | the new links stand in increasing order of the first href that resolves to them |
| Headers.RawHeadersSlice | lib/resource.go:151-156 | the flat list of some order of the keys, each once; the next rows say what is in it |
| Headers.FlatAlternates | lib/resource.go:152-154 | keys at even places, and behind each its joined values |
| Headers.JoinedOneMore | lib/resource.go:153 | one value more is added behind a comma, the first without one |
| Headers.SplitUndoesJoin | lib/resource.go:153 | cutting at the commas gives back any values without commas, if there is one |
| Headers.HeadersMap | lib/resource.go:59-67 | reads the pairs of an even-length list, later ones winning |
| Headers.PairedKeys | lib/resource.go:61-64 | the keys are the entries at even places |
| Headers.LastPairWins | lib/resource.go:61-64 | each with what follows its last occurrence |
| Headers.RoundTrip | lib/resource.go:59-67 | flattening and reading back gives the joined map for every iteration order of the header map |
| Headers.ValuesSurvive | lib/resource.go:59-67 | flattening, reading back and cutting at the commas gives the values of every key again, for every iteration order, if they have no commas of their own |

## Left out

- CoordinatorHeap.MemQueue.Push: does not block on a full channel and has no `OnPush` hook; the capacity of 150 is in `Forwarders`.
- Sitemap.SitemapGenerator.Generate: does not encode the finished map and write it to a file, which is input and output.
- The capacity of the queue inside the coordinator: `Interleaving` has no bound either, so a `Push` never blocks.
- HTTP fetching, politeness, redirect client, HTML parsing, URL parsing and normalization, CBOR and JSON: foreign code, present only as parameters or as the worker contract.
- Reports for URLs not in flight (redirect reports): excluded from `Crawl` and `WorkerContract`, allowed in the ledger, retry, lookup and shutdown results of `Interleaving` and in `ScanProtocol`; `InterleavedClosure` asks only that the store knows the reported URL.
- The Badger request store under the coordinator: `NewCoordinator` always builds one (lib/coordinator.go:58) and nothing builds a memory store, but the success branch relies on aliasing, which only the memory store has. `StatusIsCoherent`, `ScanSeesFinishedRequests`, `MarkDone` and `EachRequestIsPushedAtMost` need the memory store: over Badger the done status and the attempt of a success would be lost, and every lookup makes a new object. The results on which URLs are stored, on the counter, on pushes, shutdown and delivery do not look at stored statuses; over Badger they are not proved either. A missing key comes back as Badger's own error there, which `dequeue` does not treat as not found.
- Data races on single fields: counting an attempt together with testing it against the limit, setting a status together with storing its request, reading the stop flag together with the queue length after it (the flag never falls), or appending in a memory handler is one step.
- More than one job, and a job whose configured domains do not all parse.
- Handlers in `Interleaving`: handler calls are part of `Crawl` only.
- Liveness: no claim that a blocked shutdown ever proceeds; time, tickers and the 100 ms sleep are not modelled.
- After a cancelled context the background loop may stop applying changes; `Interleaving` lets it go on or not, as `Apply` is never forced.
- `Queue` hooks `OnPush` and `OnPop`, `FetchAfter`, crawl delay and backoff (the code that raises the delay is commented out), `StopAfterEntries` (never read).
- CBOR resource files, walks, collections beyond `Get` as a function, command-line commands and the remaining HTTP handlers: input and output or pagination.
- A negative worker parallelism makes the Go code panic and is excluded by the type of the constructor's argument; an odd-length header list makes it index out of range and is excluded by a precondition.
