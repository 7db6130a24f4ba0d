# Verification of the crawler

This project models a concurrent web crawler with a real-time search engine and proves properties of the model. The
program has one coordinator, a pool of workers and one indexer, joined by three bounded channels; an in-memory inverted
index that is searched while it grows; and a flat file of postings from which the index is restored after a restart.
`dafny verify dfyconfig.toml` checks everything.

## The crawl protocol

`CrawlSystem` is a step system. A state holds the three channels with their closed flags, the coordinator's variables,
each worker's position in its loop, the indexer, the cancellation flag and a history that nothing in the protocol reads.
An action names the goroutine that moves; everything between two communications of one goroutine is one action, so
every interleaving of the program, every choice of a `select` and every moment of cancellation is a sequence of actions
(a schedule). A send on a closed channel, or a second close, sets `panicked`. The two tickers are actions of their own.
The web is a fixed function from URLs to pages, and a page that cannot be fetched has no links. All theorems quantify
over every schedule `acts` for which `After(p, acts)` is defined.

`CrawlSession` is the same program in imperative form: a class whose fields are the program's variables and whose methods
are the loop bodies of `Start`, `coordinatorLoop`, `deduplicateAndMark` and `workerLoop`; each method is proved to do
exactly what the matching action does, so what is proved of every schedule holds of the object (`RunSchedule`, `Crawl`).

| file | about |
|---|---|
| `CrawlTypes`, `Tally`, `Runs`, `Options` | tasks, pages, link distance; sums over sequences; runs of a step function |
| `CrawlSystem`, `CrawlSession`, `CrawlStart` | the step system; the class that refines it; a whole crawl on the object |
| `CrawlSafety`, `CrawlLedger`, `CrawlOnce` | what every step keeps: exact counter, whereabouts of tasks and records, visited set, counters |
| `CrawlChannels` | the channels: order of arrival, capacity, and what anything can wait for |
| `CrawlProgress`, `CrawlTermination` | no deadlock; a measure that drops on every step but a timer's |
| `CrawlTrace`, `CrawlCoverage`, `CrawlOutcome` | where tasks come from; the URL limit; what an uncancelled run ends with |
| `CrawlBreadthFirst`, `CrawlDepth` | one worker is breadth-first; with several workers MaxDepth coverage fails, and exactly when |
| `CrawlFetches`, `CrawlShutdown`, `CrawlLoss` | how fetches end, the drain, stored rows, the fate of every accepted task |
| `CrawlExceptions`, `CrawlBarren` | duplicate seeds, and what one stopped run can lose; runs that find nothing new |
| `CrawlResume`, `CrawlRepeats` | a stop and its resume as two runs: how deep they go, and when a URL is fetched twice |
| `CrawlRestart`, `CrawlAnyStop`, `CrawlLimit` | when a resume loses a page, at one stop and at every stop; the URL limit on a restored count |
| `CrawlResumeExamples` | small crawls that are stopped and resumed, and what goes wrong with them |

## Index, search, persistence

| file | about |
|---|---|
| `Text`, `Index` | the two tokenizers; the index updated in place against a scan of the documents |
| `Search` | score accumulation, the three orders, the cut, searches that overlap with indexing |
| `PData`, `Restore` | the flat file printed and parsed; rows of a page, replay into an index, search after a restart |
| `IndexerLoop`, `Pipeline` | batched persistence through a reused slice; crawl, index, restart and search together |

Characters outside ASCII are covered by a parameter, `Alphabet`, that stands for the platform's tables of letters and
lower case; only the restart theorems assume ASCII page text (`AsciiPage`) and what the tables say about ASCII (`Sane`).
Scores are integers: every term the program adds is one.

## Where the code and its documentation part

- The repository's README promises that each URL is fetched at most once per session (README.md:18). Seeds are not
  deduplicated, so one fresh run without a URL limit keeps this under every schedule exactly when its seeds are
  distinct (`CrawlExceptions.AtMostOnceIffDistinctSeeds`). A session goes on over stops and resumes, and there
  distinct seeds are not enough: seeds are never stored as visited, the drain saves link batches unfiltered and
  unmarked, and a resumed run does not check its queue. It can fetch a page of the first run again
  (`CrawlResumeExamples.ResumeCanRefetch`), or fetch a URL twice itself although no saved task leads to a fetched page
  (`CrawlResumeExamples.ResumeCanRepeat`). From any start queue, over all webs and schedules, one run fetches no URL
  twice exactly when the queue's URLs are distinct and either all marked or none of its tasks may be expanded
  (`CrawlRepeats.AlwaysAtMostOnceIff`). Over the runs of a session no URL is fetched twice exactly when what is left
  between them is a clean handover (`CrawlRepeats.SessionAtMostOnceIff`): with rows stored by a first run, saved tasks
  with distinct URLs, none fetched yet, all at MaxDepth or beyond (`CrawlRepeats.FirstHandover`).
- It promises a crawl "up to a configurable depth" (README.md:3). A URL's depth is that of the task that found it
  first, so with several workers a page within MaxDepth links can be missed; without a URL limit every such page is
  visited under every schedule exactly when there is one worker or MaxDepth is at most one:
  `CrawlDepth.BallCoverageIff`. A resumed run stays within a MaxDepth that is not negative exactly when no row was
  stored, which makes it start over, or all saved tasks lie within it (`CrawlResume.ResumeTooDeepIff`).
- It promises that stopped crawls restart exactly where they left off (README.md:17). One run of `Start` loses a task
  when cancellation cuts its fetch short, which leaves an error record (`CrawlFetches.CutShortIsNeverIndexed`), or
  when the ordinary loop takes in a task a worker returned and drops it as already visited
  (`CrawlExceptions.CancelledRunCanLoseTask`), and in no other way (`CrawlLoss.NothingLostIff`). Whether the session
  loses the page depends on what the second run starts from. If no row is stored, the saved queue is ignored and the
  crawl starts over from the session's address, its first seed (`CrawlResume.NothingStoredStartsOver`): a lost first
  seed is fetched after all, and a saved second one is not (`CrawlResumeExamples.SecondSeedIsLost`). If a row is
  stored, a page of the first run that is no seed is fetched by the second exactly when a saved task leads to it
  (`CrawlRestart.StoredPageRefetchedIff`), and a page whose fetch was cut short can be lost for good
  (`CrawlResumeExamples.CutPageIsLost`). Together, without a URL limit: a stop and its resume lose no accepted page,
  whatever the web by then, exactly when every accepted page not fetched to the end is handed over, by a saved task if
  a row is stored and by being the session's address if not (`CrawlRestart.ResumeLosesNothingIff`); and a crawl can be
  stopped at any moment without loss exactly when it has no seed, or one that leads nowhere
  (`CrawlAnyStop.SurvivesEveryStopIff`). With a URL limit the restored count of processed pages can make the limit
  drop saved tasks (`CrawlLimit.RestoredCounterDropsTask`); exactly when is `CrawlLimit.ResumedQueueFetchedIff`.
- `collectPostings` says that its tokenizer must match the index's (internal/crawler/crawler.go:491). It keeps stop
  words, which come back after a restart; no query asks for them (`Restore.StopWordsComeBack`). A title or address
  flag restored from the database is set also where the word is only part of a longer one (`Restore.RestoredFlags`).
  The restored document count misses pages without a word of two characters (`Restore.RestoredCount`).

## Model

| member | source | states |
|---|---|---|
| CrawlTypes.BallIsPaths | internal/crawler/crawler.go:414-432 | the distance notion used throughout: a URL is in the ball of radius d exactly when a path of at most d links leads to it from a root |
| CrawlSession.EnqueueInitial | internal/crawler/crawler.go:135-145 | the initial non-blocking sends put the first QueueSize tasks on the channel, in order, and spill the rest into the overflow, in order |
| CrawlSession.SeedQueue | internal/crawler/crawler.go:122-133 | one task of depth 0 and empty origin per seed, duplicates included, and exactly the seeds marked visited |
| CrawlTypes.RecordOf | internal/crawler/worker.go:80-116 | the record of a fetch run to its end: the task's address, origin and depth, the title, body and links of its page, or an error where there is none |
| CrawlSession.BuildBatch | internal/crawler/worker.go:67-76 | one new task per link, in order, with the page as origin and one level deeper |
| CrawlSession.Session.constructor | internal/crawler/crawler.go:109-147 | a fresh or resumed start, with whatever counters it is handed, puts the object in the initial state of the step system |
| CrawlSession.Session.DeduplicateAndMark | internal/crawler/crawler.go:414-432 | the loop accepts and marks exactly what the recursive definition does, and counts it as queued |
| CrawlSession.Session.EvaluateLoop | internal/crawler/crawler.go:329-410 | loop condition, URL-limit shortcut and normal exit change the state as the step system says |
| CrawlSession.Session.TakeInBatch | internal/crawler/crawler.go:359-390 | receiving a batch in an ordinary select is one step of the system |
| CrawlSession.Session.DropBatch | internal/crawler/crawler.go:336-345 | under the URL limit a received batch only lowers the counter |
| CrawlSession.Session.SendFirstOverflow | internal/crawler/crawler.go:348-358 | sending the head of the overflow is one step of the system |
| CrawlSession.Session.DispatchOne | internal/crawler/crawler.go:382-389 | each non-blocking send goes to the channel when there is room and to the overflow when not |
| CrawlSession.Session.DrainOne | internal/crawler/crawler.go:290-300 | one turn of the drain appends a whole batch to the overflow, undeduplicated |
| CrawlSession.Session.SaveQueue | internal/crawler/crawler.go:302-318 | the overflow is saved as it is and the unflushed visited rows with it |
| CrawlSession.Session.FlushVisited | internal/crawler/crawler.go:277-286 | the rows marked since the last flush become stored rows |
| CrawlSession.Session.RunWorker | internal/crawler/worker.go:57-78 | each worker statement is one step of the system: take, cancellation check and return, fetch, record, batch, exit |
| CrawlSession.Session.RunCoordinator | internal/crawler/crawler.go:262-410 | each coordinator statement is one step of the system |
| CrawlSession.Session.RunIndexer | internal/crawler/crawler.go:167-211 | each receive, count and exit of the indexer is one step of the system; its row batching is IndexerLoop, fed the same records (Pipeline.ArrivedIsDone) |
| CrawlSession.Session.RunSchedule | internal/crawler/crawler.go:87-257 | a whole schedule run on the object reaches the state the step system reaches |
| CrawlStart.Crawl | internal/crawler/crawler.go:87-257 | an uncancelled crawl run on the object ends with agreeing counters, distinct fetched URLs inside the visited set, and the stored rows equal to the visited set less the seeds |
| CrawlLedger.DedupMarks | internal/crawler/crawler.go:414-432 | exactly the accepted URLs are marked, each was new, and the visited set grows by their number |
| CrawlLedger.DedupAccepts | internal/crawler/crawler.go:414-432 | accepted tasks come from the batch, lie within MaxDepth, and have distinct URLs |
| CrawlLedger.DedupPicks | internal/crawler/crawler.go:414-432 | accepted tasks keep the order of the batch, and of several for one URL the first within depth is taken |
| CrawlLedger.DedupComplete | internal/crawler/crawler.go:414-432 | unless the cap is reached, every task of the batch within MaxDepth ends up visited |
| CrawlLedger.DedupCapped | internal/crawler/crawler.go:423-426 | the cap is never overrun |
| CrawlLedger.DedupNothingNew | internal/crawler/crawler.go:420-426 | at the cap, or when all URLs are visited, nothing is accepted or marked |
| CrawlSafety.ShapeKept | internal/crawler/crawler.go:262-410 | every step keeps the in-flight counter exact, the channels within capacity, the order of closing, and never panics |
| CrawlSafety.BooksKept | internal/crawler/crawler.go:329-399 | every step keeps each accepted task, and each record, in exactly one place |
| CrawlLedger.LedgerKept | internal/crawler/crawler.go:184-368 | every step keeps visited set, stored rows and counters in agreement with the history |
| CrawlLedger.SoundAlways | internal/crawler/crawler.go:87-257 | all of these hold after every schedule |
| CrawlOnce.InFlightExact | internal/crawler/crawler.go:329-399 | in every state inFlight is the number of waiting tasks, busy workers and waiting batches; no send or close ever hits a closed channel |
| CrawlOnce.QuietAfterReturn | internal/crawler/crawler.go:224-234 | when the coordinator has returned, channels are empty, workers idle and nothing is unsent; at the end the indexer has taken everything |
| CrawlOnce.AtMostOneFetch | internal/crawler/crawler.go:348-398 | from a duplicate-free, marked queue, no URL occurs twice among queued, waiting, held and fetched tasks, all of them visited, in any run, cancelled or not |
| CrawlOnce.AtMostOneRecord | internal/crawler/crawler.go:162-221 | finished records answer distinct URLs, each of them fetched |
| CrawlChannels.ChannelsAreFifo | internal/crawler/crawler.go:109-111 | along any schedule, what has arrived at the far end of each channel, followed by what is in it, is what was sent into it, in order; and records are finished in that order |
| CrawlChannels.DrainKeepsOrder | internal/crawler/crawler.go:290-318 | the drain puts the batches it receives behind what waits, whole and in order of arrival, and that is the order saved |
| CrawlChannels.WaitsOnlyOnChannels | internal/crawler/crawler.go:109-111 | in any reachable state a goroutine waits only to send on a full channel, of QueueSize tasks or twice NumWorkers batches or records, or to receive from an empty one; a cancellation is seen in every select and every fetch |
| CrawlProgress.DeadlockFree | internal/crawler/crawler.go:224-399 | every reachable state short of the end has a move that is no timer, no cancellation and no fetch cut short |
| CrawlProgress.FinishedIsFinal | internal/crawler/crawler.go:230-257 | a finished run has no such move left |
| CrawlTermination.DedupUsesUniverse | internal/crawler/crawler.go:414-432 | each task accepted uses up one unvisited URL of those that can ever be reached |
| CrawlTermination.StepLowersWeight | internal/crawler/crawler.go:329-399 | the weight strictly drops on every step but a timer's, with or without cancellation |
| CrawlTermination.EveryScheduleEnds | internal/crawler/crawler.go:87-257 | the moves of any schedule that are not timer moves number at most the starting weight plus the timer moves |
| CrawlTermination.CarryOn | internal/crawler/crawler.go:87-257 | any run, from any reachable state, can be carried on to its end without timers and without cancelling it |
| CrawlTrace.DedupLinked | internal/crawler/crawler.go:414-432 | whatever dedup accepts was linked from a page fetched before |
| CrawlTrace.OriginsAlways | internal/crawler/worker.go:67-76 | every task found was linked from a fetched page one level up, which is its origin |
| CrawlCoverage.SeedsMakeFreshStart | internal/crawler/crawler.go:122-133 | distinct seeds, at most MaxURLs of them, make the start the coverage theorems assume |
| CrawlCoverage.UrlLimitHarmless | internal/crawler/crawler.go:325-432 | the visited set never exceeds MaxURLs; when the limit applies it is exactly reached, nothing is left to hand out, and dedup would accept nothing from any batch |
| CrawlLimit.LimitIgnoresBatches | internal/crawler/crawler.go:336-345 | under the limit, on a fresh or a resumed run, a batch received changes nothing but the counter |
| CrawlOutcome.VisitedWithinBall | internal/crawler/crawler.go:414-432 | each accepted task lies within its depth of a seed, and nothing beyond MaxDepth links is ever visited |
| CrawlOutcome.EverythingFetched | internal/crawler/crawler.go:329-399 | an uncancelled run fetches exactly what it accepted, from a fresh start or, without a URL limit, from any starting queue |
| CrawlOutcome.ClosedAtEnd | internal/crawler/crawler.go:329-432 | an uncancelled run, fresh or without a URL limit from any start, ends with exactly MaxURLs visited, or closed under the links of every accepted task of depth below MaxDepth |
| CrawlOutcome.FullCoverage | internal/crawler/crawler.go:329-432 | without a URL limit and with MaxDepth at least the number of reachable URLs less one, every schedule visits exactly the reachable URLs |
| CrawlOutcome.FinalAccounting | internal/crawler/crawler.go:146-429 | pages queued, pages processed, and documents plus errors all equal the number of visited URLs; one record per accepted task, with the title, body and links of its page, or an error if it has none |
| CrawlOutcome.OneDocumentPerPage | internal/crawler/crawler.go:184-208 | an accepted page is among the indexed documents, once, exactly when it could be fetched |
| CrawlOutcome.CancelledIff | internal/crawler/crawler.go:241-242 | a run is cancelled exactly when the cancellation is among its steps |
| CrawlOutcome.StopReasonExact | internal/crawler/crawler.go:240-247 | of any run, fresh or resumed: stopped exactly when it was cancelled before its end, otherwise the URL limit exactly when the pages counted, those counted before a resume included, have reached it, otherwise completion; a later cancellation changes nothing |
| CrawlOutcome.StopReasonTells | internal/crawler/crawler.go:240-247 | of an uncancelled fresh run: the URL limit exactly when the visited set has reached it, and completion otherwise |
| CrawlBreadthFirst.DepthIsDistance | internal/crawler/crawler.go:329-398 | with one worker, URL limit or not, every accepted task's depth is its exact link distance, at any point of the run, although sends reorder tasks inside a batch |
| CrawlBreadthFirst.NearestFirst | internal/crawler/crawler.go:329-432 | with one worker, URL limit or not, a page at distance d is visited only after every page nearer than d |
| CrawlBreadthFirst.OneWorkerVisitsBall | internal/crawler/crawler.go:348-432 | with one worker an uncancelled run that ends below the URL limit, if there is one, visits exactly the ball of radius MaxDepth |
| CrawlDepth.BallCoverageIff | internal/crawler/crawler.go:348-432 | all webs, seeds and schedules visit the whole ball of radius MaxDepth exactly when there is one worker or MaxDepth is at most one |
| CrawlDepth.FailsForTheTrap | internal/crawler/crawler.go:417-422 | a web on which, with two workers or more, some schedule misses a page within MaxDepth links |
| CrawlShutdown.DrainConserves | internal/crawler/crawler.go:290-318 | from the start of the drain, the saved queue is the overflow, all batches, waiting and held tasks and the links of fetches under way, less those of fetches cut short |
| CrawlShutdown.DrainReceivesInFlight | internal/crawler/crawler.go:290-300 | the drain receives exactly inFlight batches |
| CrawlShutdown.StoredTracksVisited | internal/crawler/crawler.go:272-402 | stored and unflushed rows together are always the visited set less what the start marked without storing; after the return the stored rows alone are |
| CrawlShutdown.TickStores | internal/crawler/crawler.go:277-286 | when the persist timer has fired, the stored rows alone are the visited set less what the start marked without storing |
| CrawlShutdown.SeedsNeverStored | internal/crawler/crawler.go:124-133 | a fresh crawl never stores a seed as visited |
| CrawlShutdown.ReturnedTaskIsDropped | internal/crawler/crawler.go:359-422 | a returned task taken in by the ordinary loop is dropped as visited |
| CrawlExceptions.CancelledRunCanLoseTask | internal/crawler/crawler.go:376-390 | a concrete cancelled run that ends as if complete, with an empty saved queue and its only seed never fetched |
| CrawlExceptions.NeverLosesIffNothingToCrawl | internal/crawler/crawler.go:290-390 | for every configuration, web and distinct seeds: no schedule loses a task, no schedule cuts a fetch short, and no schedule takes a task back, each exactly when there are no seeds |
| CrawlResume.SavedWithinOneMore | internal/crawler/crawler.go:290-318 | every saved task is at most one level deeper than MaxDepth and the tasks the run started from |
| CrawlResume.NeverFetchesIff | internal/crawler/crawler.go:118-145 | an unlimited run keeps away from URLs marked at its start, under every schedule, exactly when its starting queue holds none of them |
| CrawlResume.NeverTooDeepIff | internal/crawler/crawler.go:118-145 | an unlimited run fetches within MaxDepth, under every schedule, exactly when its starting queue lies within it |
| CrawlResume.NothingStoredStartsOver | internal/crawler/crawler.go:117-133 | without a stored row the resumed run is the fresh crawl of the session's address, whatever was saved |
| CrawlResume.ResumeRefetchesIff | internal/crawler/manager.go:378-447 | over a stop and a resume no page but a seed is fetched again, under every schedule, exactly when no saved task leads to a fetched page |
| CrawlResume.ResumeTooDeepIff | internal/crawler/manager.go:378-447 | the resumed run stays within MaxDepth exactly when MaxDepth is not negative and no row is stored or every saved task lies within it; no saved task lies more than one level beyond |
| CrawlBarren.BarrenAlways | internal/crawler/crawler.go:414-432 | a run whose queue is too deep to be expanded, or links to nothing, accepts nothing before cancellation and fetches no more than its queue |
| CrawlRepeats.FetchesOnlyNewIff | internal/crawler/crawler.go:117-145 | from any starting queue, without a limit: over all webs and schedules no URL is fetched twice and none of a given set at all, exactly when the queue is distinct and outside the set, and is too deep to be expanded or marked together with the set |
| CrawlRepeats.AlwaysAtMostOnceIff | internal/crawler/crawler.go:117-145 | from any starting queue, without a limit: no URL is fetched twice, over all webs and schedules, exactly when its URLs are distinct and all marked, or distinct with no task above MaxDepth |
| CrawlRepeats.LinkedQueueUrlIsRepeated | internal/crawler/crawler.go:414-432 | on a given web every uncancelled run fetches an unmarked URL of its queue twice if a page of the queue that may be expanded links to it |
| CrawlRepeats.SessionAtMostOnceIff | internal/crawler/manager.go:378-447 | after any stopped run and any earlier fetches, no web and no schedule of the resumed run make the session fetch a URL twice, exactly when it has not yet and the handover is clean: distinct, not fetched before, and too deep or all marked; or, with no row stored, an address not fetched that cannot lead back |
| CrawlRepeats.FirstHandover | internal/crawler/manager.go:378-447 | after a first run with stored rows the handover is clean exactly when the queue is distinct, not fetched before, and all of it at MaxDepth or deeper |
| CrawlRestart.AlwaysCompletesIff | internal/crawler/crawler.go:117-145 | the pages every uncancelled run from a start fetches to the end, whatever the web, are those of its queue |
| CrawlRestart.ResumeLosesNothingIff | internal/crawler/manager.go:378-447 | a stop and its resume lose no accepted page, whatever the web by then, exactly when each one not fetched to the end is handed over by a saved task or, with no row or task, as the session's address; the saved tasks are fetched exactly when a row is stored or all lead to that address |
| CrawlRestart.StoredPageRefetchedIff | internal/crawler/manager.go:378-447 | on any one web, a page stored by the first run is fetched by an uncancelled second run exactly when it is handed over |
| CrawlRestart.SparedRunLosesNothing | internal/crawler/manager.go:378-447 | a fresh run with no fetch cut short and no task taken back is resumed without loss exactly when a row is stored or nothing but the session's address is unfinished |
| CrawlAnyStop.SurvivesEveryStopIff | internal/crawler/manager.go:355-447 | for every configuration without a limit, web and distinct seeds: every stop is resumed without loss exactly when there is no seed, or one with MaxDepth at most zero or no link to another URL |
| CrawlLimit.AlwaysFetchesQueueIff | internal/crawler/crawler.go:321-345 | from any start, over all webs and schedules, an uncancelled run fetches its whole starting queue exactly when there is no limit, the queue fits on the channel, or the restored count leaves the limit room for it |
| CrawlLimit.ResumedQueueFetchedIff | internal/crawler/manager.go:416-447 | a resumed run with stored rows fetches all saved tasks exactly under that condition on the saved queue and the restored count |
| CrawlLimit.RestoredCounterDropsTask | internal/crawler/crawler.go:331-335 | a resumed start whose restored count has reached MaxURLs: the first turn of the loop drops a saved task unfetched |
| CrawlResumeExamples.ResumeCanRefetch | internal/crawler/crawler.go:290-318 | a stop and a resume, from one seed, after which a page that is no seed can be fetched twice |
| CrawlResumeExamples.ResumeCanRepeat | internal/crawler/crawler.go:290-318 | a stop and a resume, from one seed, with no saved task leading to a fetched page, whose second run can fetch a URL twice |
| CrawlResumeExamples.CutPageIsLost | internal/crawler/worker.go:64-76 | a stop and a resume, from one seed, after which a page stored as visited and not fetched to the end is never fetched, whatever the web |
| CrawlResumeExamples.SecondSeedIsLost | internal/crawler/manager.go:398-409 | two seeds, stopped before anything is fetched: the run itself loses nothing and saves both, and the resumed run never fetches the second |
| CrawlFetches.EveryFetchEnded | internal/crawler/worker.go:64-76 | once the coordinator has returned, every fetch started was completed or cut short, exactly one of the two |
| CrawlFetches.EverythingCompleted | internal/crawler/worker.go:64-76 | an uncancelled run, fresh or without a URL limit, fetches to the end exactly what it accepted |
| CrawlFetches.CompletedIsIndexed | internal/crawler/crawler.go:184-208 | at the end of any run a completed fetch has its page's record finished, and indexed exactly when there is a page |
| CrawlFetches.CutShortIsNeverIndexed | internal/crawler/worker.go:89-94 | a fetch cut short leaves an error record, and no document of its URL is indexed |
| CrawlLoss.EveryTaskHasOneFate | internal/crawler/crawler.go:290-390 | every task accepted by a fresh crawl ends in exactly one of four ways: fetched to the end, cut short, in the saved queue, or taken back by the ordinary loop |
| CrawlLoss.NothingLostIff | internal/crawler/crawler.go:302-390 | a run loses no accepted task, each being fetched to the end or saved, exactly when no fetch was cut short and the ordinary loop took no accepted task back |
| CrawlLoss.UncancelledLosesNothing | internal/crawler/crawler.go:329-410 | a run that is not cancelled loses nothing |
| CrawlLoss.LinksAreNew | internal/crawler/worker.go:64-76 | when a page's fetch starts, nothing it links to through it is accepted or under way yet |
| CrawlExceptions.AtMostOnceIffDistinctSeeds | internal/crawler/crawler.go:124-132 | an unlimited fresh crawl fetches no URL twice under any schedule exactly when its seeds are distinct |
| Text.Tokenize | internal/index/index.go:121-138 | the loop yields the words of the lowered text, in order, less those of one byte and the stop words |
| Text.RowCountIsTokenCount | internal/crawler/crawler.go:492-502 | on ASCII text the two tokenizers count every word the index keeps alike, over body, a space and title |
| Text.FieldsSplit | internal/crawler/crawler.go:492-495 | splitting two texts joined by a separator gives the words of the one and then of the other |
| Text.FieldsOfWord | internal/index/index.go:123-125 | a text of word characters is one word, and the empty text none |
| Text.FieldsAreRuns | internal/index/index.go:123-125 | the words of a text are its maximal runs of word characters |
| Text.TokensAreRuns | internal/index/index.go:121-138 | the tokens of a text are the maximal runs of letters and digits of the lowered text that are kept |
| Text.RowWordsAreRuns | internal/crawler/crawler.go:492-495 | row words are the maximal runs of a to z and 0 to 9 in the lowered body or title, one byte per character |
| Text.KeptByLength | internal/index/index.go:127-134 | of ASCII words, those of one character are dropped, those of two to five exactly when they are among the listed stop words, longer ones never |
| Text.ForeignWordsStay | internal/index/index.go:127-134 | a word with a character outside ASCII is never dropped, whatever its length |
| Text.FieldsAreWords | internal/crawler/crawler.go:493-495 | row words are non-empty and made of lower-case letters and digits |
| Index.ToSet | internal/index/index.go:140-146 | the set holds exactly the tokens |
| Index.CountTokens | internal/index/index.go:52-60 | the table counts exactly the occurrences in both token lists |
| Index.CountDocument | internal/index/index.go:45-60 | the counts over body and title, and the token sets of title and address |
| Index.InvertedIndex.AddDocument | internal/index/index.go:44-87 | one posting, with the title-plus-body count, is appended to the list of each token of the document and to no other |
| Index.InvertedIndex.Lookup | internal/index/index.go:90-96 | the whole list of a token, empty for an unknown one |
| Index.InvertedIndex.AddPosting | internal/index/index.go:107-111 | one posting is appended to one list |
| Index.InvertedIndex.SetDocCount | internal/index/index.go:114-118 | the count is what it was set to |
| Index.IndexAll | internal/index/index.go:37-87 | after any documents, each list is the in-order scan of the documents containing the token |
| Index.ScanGrows | internal/index/index.go:84 | later documents only lengthen a list |
| Search.Accumulate | internal/index/search.go:38-56 | the running map is, per URL, first hit and summed score and frequency |
| Search.Collect | internal/index/search.go:58-69 | each URL once, with its own totals, in any order |
| Search.SortSlice | internal/index/search.go:71-91 | the slice sorted in place is ordered and a permutation |
| Search.BeforeIsStrictWeakOrder | internal/index/search.go:71-91 | the three comparisons are strict weak orders |
| Search.CutIsAnswer | internal/index/search.go:71-97 | cutting any ordered arrangement of all results keeps the right number and omits nothing strictly better |
| Search.AnswerLength | internal/index/search.go:93-95 | an answer has topK results when there are more, and otherwise names every URL hit |
| Search.RelevanceRanks | internal/index/search.go:86-90 | in relevance order scores never rise, and a URL left out scores no more than any kept |
| Search.DepthRanks | internal/index/search.go:72-78 | in depth order depths never fall, scores never rise at equal depth, and a URL left out is deeper than each kept, or as deep and scored no higher |
| Search.FrequencyRanks | internal/index/search.go:79-85 | in frequency order frequencies never rise, nor scores at equal frequency, and a URL left out is less frequent than each kept, or as frequent and scored no higher |
| Search.Search | internal/index/search.go:21-98 | for each order, any map order and any tie-breaking: distinct, ordered, right totals, min(topK, all) results, none omitted that strictly precedes one kept |
| Search.SearchDocuments | internal/index/search.go:21-98 | indexing then searching answers from scans of the documents |
| Search.ScoreIsSumOverDocuments | internal/index/search.go:53 | a score is the sum, over query tokens and documents of the URL containing them, of 10·count + 1000 − 5·depth |
| Search.FrequencyIsSumOverDocuments | internal/index/search.go:54 | a frequency is the number of occurrences of the query tokens in the documents of the URL |
| Search.ResultShowsFirst | internal/index/search.go:38-50 | origin, depth and title are those of the first document of the URL with the first query token that any of its documents contains |
| Search.ContainingIsFound | internal/index/search.go:38-56 | every document containing a query token is found |
| Search.FoundIsContaining | internal/index/search.go:38-56 | every URL found belongs to a document containing a query token |
| Search.SearchWhileIndexing | internal/index/search.go:38-56 | a search between whose lookups documents are added answers from lists cut at growing numbers of documents |
| Search.SearchIsSandwiched | internal/index/search.go:38-56 | such a search lies between the atomic ones at its first and last lookup: URLs, frequencies, and scores when no document costs points |
| Search.ShallowIsFree | internal/index/search.go:53 | depths up to 202 never cost points |
| Search.ScoresSandwichedIff | internal/index/search.go:38-56 | scores are sandwiched under every interleaving exactly when no document costs points |
| PData.AtoiItoa | internal/storage/pdata.go:49-84 | a printed integer reads back as itself when it has 64 bits, and not at all otherwise |
| PData.AtoiShape | internal/storage/pdata.go:77-84 | what reads as an integer is a sign or none and at least one digit; a plus sign or leading zeros change nothing |
| PData.WriteRows | internal/storage/pdata.go:43-50 | the loop writes one line per row, "-" for an empty origin |
| PData.PDataFile.AppendPostings | internal/storage/pdata.go:24-52 | the file grows by the printed rows; no rows leave it alone |
| PData.PDataFile.LoadPostings | internal/storage/pdata.go:56-109 | the loop reads every well-formed line and skips the others |
| PData.LoadAfterAppend | internal/storage/pdata.go:24-109 | loading after an append gives the rows there were, then the appended ones as stored |
| PData.RoundTripIff | internal/storage/pdata.go:44-102 | a row comes back exactly when token, URL and origin hold no space or newline and the origin is not "-" |
| PData.PrintedLine | internal/storage/pdata.go:44-50 | a row printed, character by character |
| PData.ShortLineIsSkipped | internal/storage/pdata.go:72-75 | a line with fewer than four spaces yields no row |
| PData.LineIsRead | internal/storage/pdata.go:72-99 | any other line, cut at its first four spaces, yields one row of its fields, "-" standing for an empty origin, and none if the fourth or fifth is no integer |
| PData.LineHasFields | internal/storage/pdata.go:72 | every line with four spaces can be cut that way |
| PData.LineEnds | internal/storage/pdata.go:66-68 | a line ends in a newline, with or without a carriage return before it |
| PData.LoadedArePrintable | internal/storage/pdata.go:66-102 | whatever the text, only such rows are ever read |
| PData.LoadPrintLoad | internal/storage/pdata.go:24-109 | writing back what was read and reading it again changes nothing |
| Restore.CountLongWords | internal/crawler/crawler.go:496-501 | the table counts exactly the words of two bytes or more |
| Restore.ReplayRows | internal/crawler/manager.go:78-91 | each list grows by its rows in order, and the count becomes the number of distinct URLs |
| Restore.RestoreIndex | internal/crawler/manager.go:70-126 | p.data if it can be read and has rows; if it is missing, unreadable or empty, the database, with an error only when that fails; lists and count follow from the rows used |
| Restore.PageReplayed | internal/crawler/crawler.go:490-519 | stored and replayed, a page's rows give a kept token the page's posting, titles and flags aside |
| Restore.RestoredFlags | internal/crawler/crawler.go:504-516 | a restored title or address flag is set exactly when the lowered title or address contains the word, so wherever the live flag is |
| Restore.StopWordsComeBack | internal/crawler/crawler.go:491-502 | the replayed rows differ from the live posting for exactly the page's stop words |
| Restore.RestoredPostings | internal/crawler/crawler.go:490-519 | over all pages, each kept token gets back its live postings in the same order |
| Restore.TableRestoresPostings | internal/crawler/manager.go:97-119 | the rows handed to the database give each kept token its live postings in order: address, origin, depth, title and count |
| Restore.FileRestoresPostings | internal/crawler/crawler.go:490-519 | the same through a file written and read back |
| Restore.RestoredCount | internal/crawler/manager.go:78-91 | the restored count is at most the live one, and equal exactly when every page has a word of two characters |
| Restore.RestoredSearchIsLiveSearch | internal/crawler/manager.go:70-94 | the answers a restored index can give are exactly those the live index can give, titles aside |
| Restore.SearchAfterRestart | internal/crawler/manager.go:70-94 | loading the file, restoring an empty index and searching returns an answer of the live index, titles aside |
| Restore.TableSearchIsLiveSearch | internal/crawler/manager.go:97-123 | for pages of distinct addresses, and whatever order the database returns its rows in, the answers of the restored index are exactly those of the live one, titles included |
| Restore.HandedRowsHold | internal/crawler/crawler.go:202-204 | the rows of such pages have distinct keys, so the table holds just them |
| Restore.SearchAfterTableRestart | internal/crawler/manager.go:70-126 | with p.data missing, unreadable or empty, restoring from the database and searching gives an answer of the live index |
| IndexerLoop.RowBuffer.Append | internal/crawler/crawler.go:508-517 | the slice grows by one row at its end, whether or not its storage is replaced |
| IndexerLoop.CollectPostings | internal/crawler/crawler.go:490-519 | one row per word of two bytes or more, with its count, in whatever order the map yields; in characters, the tokens are the maximal runs of at least two of a to z and 0 to 9 in the lowered body or title |
| IndexerLoop.PostingIndexer.HandleRecord | internal/crawler/crawler.go:169-208 | written rows followed by waiting ones stay the rows of all error-free records; fewer than 500 wait, nothing is written before 500 do, and then all of them |
| IndexerLoop.PostingIndexer.HandleTick | internal/crawler/crawler.go:209-218 | the timer writes all that waits, so every record is then written, and loses nothing |
| IndexerLoop.PostingIndexer.HandleClose | internal/crawler/crawler.go:172-183 | the closing flush leaves every row written |
| IndexerLoop.PostingIndexer.Take | internal/crawler/crawler.go:167-218 | over any mix of records and timer events, file and database hold the rows of the first error-free records, at least all that arrived before the timer last fired |
| IndexerLoop.PostingIndexer.Run | internal/crawler/crawler.go:162-221 | over any mix of records and timer events, file and database get the rows of exactly the error-free records, each once and in order, and the index their scan |
| Pipeline.SearchFindsCrawledPages | internal/crawler/crawler.go:184-197 | after a complete crawl a search finds exactly the accepted, fetchable pages whose body or title, as the web gives them, has a query token among its words |
| Pipeline.IndexedOnce | internal/crawler/crawler.go:184-197 | no run from distinct marked URLs, complete or not, indexes a page twice |
| Pipeline.RestartSearch | internal/crawler/manager.go:70-126 | a restart at any moment of an indexer's life, from its file or its table, answers over the pages written by then, titles aside |
| Pipeline.RestartFromTable | internal/crawler/manager.go:97-123 | a restart at any moment without p.data: rows of the database in any order give an answer over the pages written by then, titles included |
| Pipeline.IndexRestartSearch | internal/crawler/crawler.go:162-221 | index and persist any mix of records and timer events, end, restart, search: an answer over the error-free records, titles aside |
| Pipeline.TableRestartSearch | internal/crawler/manager.go:97-123 | the same with a database and no p.data, for pages of distinct addresses: an answer of the live index, titles included |
| Pipeline.CutOffRestartSearch | internal/crawler/crawler.go:167-218 | the same cut off before the end: an answer over the first records, at least all that arrived before the timer last fired |
| Pipeline.ArrivedIsDone | internal/crawler/crawler.go:162-221 | along any schedule of a crawl the posting indexer gets exactly the records the crawl's indexer finishes, in order |
| Pipeline.CrawlRestartSearch | internal/crawler/crawler.go:162-221 | after a crawl run to its end, cancelled or not, and a restart, an answer over the pages indexed; after a complete crawl an uncut search finds exactly the accepted, fetchable pages that match |
| Pipeline.CrawlTableRestartSearch | internal/crawler/crawler.go:162-221 | a crawl kept in the database only, run to its end, cancelled or not, and restarted: an answer over the pages indexed, titles included |
| Pipeline.CutOffCrawlSearch | internal/crawler/crawler.go:167-218 | after any schedule of a crawl, cut off there, and a restart: an answer over the first pages indexed, at least all indexed before the timer last fired |

## Left out

- HTTP fetching, redirects, timeouts and body limits: a page is a value of the web function, and an error text is a flag.
- HTML parsing, URL normalisation and the same-domain filter: the links of a page are what is left after them; they rest on libraries that are not part of this model.
- The text of a fetch error: a page that cannot be fetched and a fetch cut short, which happens only after cancellation, leave the same error record.
- SQLite: the visited table is a set, the queue table a sequence, and every write succeeds. The postings table replaces rows with the same token and URL; the model keeps all rows handed to it, and restores from a table of distinct keys, as pages of distinct addresses give.
- PData.PDataFile.LoadPostings: does not model the scanner's one-megabyte line limit and its error, which are the library's; every line is read.
- File opening, directories and the file mutex: p.data is a text that exists or not.
- The manager's start and stop, its session records and its errors (a resume is modelled as the run it starts), the dashboard, JSON handlers, command-line flags and signals.
- Time: tickers are steps that may happen at any moment and are excluded from the termination measure; timestamps and status codes are dropped.
- The gauges QueueDepth, OverflowSize and ActiveWorkers, log lines, and the trimming of the overflow's spare capacity.
- Mutexes and atomics: each index operation and each counter update is one atomic step, as its lock makes it.
- QueueSize 0 (a rendezvous channel) and NumWorkers 0: the theorems on runs ask for at least one of each.
- Full Unicode: lower-casing and letter classes outside ASCII are a parameter; the restart theorems are stated for ASCII pages, whose two tokenizers agree.
- Floating point: scores are integers; nothing is claimed about rounding of huge values.
- Integer overflow of counts: a page is assumed shorter than the largest 64-bit integer.
- The platform's sort is an insertion sort here; the contracts fix no order among ties, so any sort by the same comparison meets them.
- Whether links lead a resumed run back to a lost seed: that hangs on the web it meets and on its schedule, so the theorems on loss over two runs speak of every web.
- Two runs with a URL limit, beyond the saved tasks: which newly found links a restored count keeps the resumed run from following.
