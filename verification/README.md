# hcat: resolving, watching and collecting, verified

hcat re-renders templates from a cache that background views fill, and garbage-collects the
dependencies that templates stop using. This project models that machinery and the pure parts it
stands on, and proves what it promises. `dafny verify dfyconfig.toml` checks all of it.

## The system

**Tracker and watcher** (`Store`, `Template`, `Tracker`, `Watcher`). The tracker keeps a list of
(view, notifier) pairs with two flags, the views by ID and the notifiers by ID. The classes
`Tracking.Tracker`, `Watching.Watcher`, `Templates.Template` and `Storing.Store` have the source's
fields and loops; every method is proved equal to a specification function on the whole state
(`Sweep`, `AfterRecall`, `AfterDeregister`, ...), and the theorems are about those functions.

- `Integrity`: over any run of operations. Views are conserved: what entered the map is in it or was
  stopped, exactly once. Until Stop the relation is sound: no duplicate pair, every pair's
  notifier registered and its view in the map, and what was read is cached. Collection is exact when
  view IDs and notifier IDs are disjoint, and otherwise exactly when no garbage view bears the ID of
  a notifier that keeps a pair, because sweep files both kinds of ID in one set.
- `Resolver`: one Run. After a render the template's pairs are exactly what the render recalled, the
  others' pairs are untouched and in order, and Complete says that every recall hit.
- `Convergence`: repeating Run and Wait. With k recalls on the source's path at most k + 1 runs are
  needed, whatever other templates do in between, and the content is the pure evaluation.
- `Following`: the same while the source changes. Once what differs is delivered, templates come to show the new
  source, over any number of changes.
- `Updates`: renders and arrivals interleaved at the granularity of the source's locks. A value other than the one
  the last successful render used is being signalled or being rendered, unless the last execution to
  end failed, which consumes the dirty flag.
- `Coherence`: the cache against the views. Where it differs from a live view, that view's delivery is
  on its way, provided no swept view's delivery is saved; what one such save does is characterised.

**Views** (`View`, `Poll`). `Viewing.View` fetches until something is new. For any upstream, what is
delivered is the de-stuttered sequence of the data that got past the index test; for an upstream
whose indices are faithful, that is every change, and the poll pushes just that sequence. `Polling`
counts retries, says when a poll gets stuck, and shows that one poll at a time is past the flag.

**Buffer periods** (`Buffer`, `Triggers`). A closed form for the armed time after any ticks, the
debounce and the hard deadline, and, with goroutines interleaved, that triggers are conserved.

**Explode** (`Strings`, `Maps`, `ExplodeFacts`, `Explode`). Nested maps updated in place on the heap
refine insertion into a tree, which refines a flat map from paths to values.

**Query texts** (`Grammar`, `Queries`). The v0 expressions match in one way only; printing an accepted
query and reading the text in its ID gives it back, and cache keys collide only on the connect flag.

**Vault** (`Lease`, `Vault`). How long to sleep before a secret is read again, and the one-slot channel
that carries the sleep from one fetch to the next, with the renewals between reads.

## Main results

- Conservation, soundness and exact collection over every run: `Integrity.NoLeakNoDoubleStop`, `SoundRun`, `ExactRun`,
  `SweepExactIff`, `StrandedStaysIff`, `DeregisterWindow`.
- One Run and the loop of Runs: `Resolving.FreshRunExact`, `OtherRunsRemoveNothing`, `Convergence.ForeignStep`,
  `RunWaitLoopConverges`, `Following.SourceChanges`, `FollowsTheSource`, `Resolving.NoChangeRepeats`.
- Interleavings: `Updates.NoLostUpdate`, `QuietMeansCurrent`, `Coherence.CoherentRun`, `SaveCoherentIff`,
  `Triggers.TriggersNeverExceedActivations`, `TickIsCovered`, `Polling.SinglePoller`.
- Views: `Viewing.DeliversFresh`, `DeliversEveryChange`, `SettlesIff`, `SilentIff`, `WaitsOnZeroIff`, `Polling.PushesFresh`,
  `RequestsOverLife`, `GetsStuckIff`, `RetriedIff`, `OffersAfterRetries`.
- Timers: `Buffering.ClosedForm`, `Debounce`, `HardDeadline`.
- Explode: `Exploding.InsertFailsIff`, `InsertFind`, `ExplodeFailsIff`, `Flattening.OrderIrrelevant`, `ValuesSurviveIff`,
  `Nesting.ExplodeMap`.
- Queries: `Grammars.Unambiguous`, `Querying.ReparseIff`, `SameIdIff`.
- Vault: `Leasing.WaitBounds`, `SleepsIff`, `Secrets.NeverBlocks`, `SleepsBetweenReads`, `RenewsBetweenReads`.

## How things are represented

- A view's identity (a pointer in the source) is `View(id, serial)`; calls of `stop()` are recorded in
  a multiset, so a double stop would show.
- A template's text is a strategy: `Program.step` maps the answers so far to the next recall, a
  failure or the content. This covers every adaptive recall tree; `Finite` bounds the number of recalls.
- Payloads are opaque values compared by equality (`reflect.DeepEqual` in the source).
- A watched upstream, the clock, the random numbers, which ready branch a `select` takes and when Stop
  is called are parameters of the operations, so that theorems hold for all of them.
- A panic of the source is an outcome, not a precondition.

## Where the code and its comments differ

- `internal/dependency/vault_common.go:69-70` asks that the base never become zero or less. An expired
  certificate makes it so (line 81). A base of more than some 292 years moreover overflows the multiplication
  of line 113; `Leasing.SleepsIff` says exactly when the sleep is positive in spite of both.
- `watcher.go:343-347` says that registering a notifier twice is an error. Two equal notifiers in one call
  are accepted, since the check only looks at earlier calls; `Watching.RegisterTwice` shows it.
- `view.go:270-272` promises data or an error from every fetch. A stopped or cancelled one
  returns without either; `Viewing.SilentIff` says exactly which.
- `watcher.go:404-405` promises that Poll starts any polling that is needed. A poll whose fetch returned without a word on an
  unstopped view never leaves its select (`view.go:194-266`) and keeps its flag, so later polls return at once;
  `Polling.GetsStuckIff` says exactly when, `Polling.StoppedDependencySticks` gives the input.
- `watcher.go:352-359` releases the tracker between unregistering and sweeping. An update that arrives in
  between can call a nil notifier; `Integrity.DeregisterWindow` says exactly when.
- `internal/dependency/health_service.go:160-181` accepts a filter of commas alone and then filters nothing;
  its ID prints no filter, which reads back as the default one (`Querying.BlankFilter`).

## Model

| member | source | states |
|---|---|---|
| Storing.Store.Recall | store.go:43-48 | answers with the entry, or a miss exactly if there is none |
| Storing.Store.Reset | store.go:61-68 | the range loop leaves an empty cache |
| Templates.Template.constructor | template.go:115-134 | a new template is primed to run |
| Templates.Template.Notify | template.go:148-155 | the flag is up afterwards, without blocking on a full slot |
| Templates.Template.IsDirty | template.go:157-164 | reports and takes the flag |
| Tracking.Tracker.RegisterNotifiers | watcher.go:595-607 | all or nothing: one ID present earlier and none is added; entries already there keep their notifier |
| Tracking.Tracker.DeregisterNotifiers | watcher.go:610-617 | exactly the named notifiers leave the map |
| Tracking.Tracker.LookupPair | watcher.go:636-647 | found exactly if the notifier and the dependency are paired |
| Tracking.Tracker.Add | watcher.go:657-668 | an ID already viewed keeps its view; an unregistered notifier panics after the view entered the map and before the pair is added |
| Tracking.Tracker.DoMarkInUse | watcher.go:671-680 | the loop marks the pair and nothing else |
| Tracking.Tracker.DoCacheAccessed | watcher.go:574-583 | the loop records the read on the pair and nothing else |
| Tracking.Tracker.DoMarkForSweep | watcher.go:728-736 | clears the marks of this notifier's pairs only |
| Tracking.Tracker.Compact | watcher.go:744-754 | compaction over the slice being read keeps, in order, the marked pairs and the other notifiers'; the used set is theirs |
| Tracking.Tracker.DropUnused | watcher.go:756-762 | the loop stops and deletes exactly the views whose ID is not used |
| Tracking.Tracker.DoSweep | watcher.go:741-763 | pairs, views, stop calls and cache deletions of one sweep: exactly the views whose ID no kept pair mentions go |
| Tracking.Tracker.DoStopViews | watcher.go:683-693 | every view of the map is stopped once and leaves; the pairs stay |
| Tracking.Tracker.IsComplete | watcher.go:711-722 | complete exactly if each of the notifier's pairs was read from the cache |
| Tracking.Tracker.NotifiersOf | watcher.go:696-707 | one entry per pair of the view, in tracking order: its notifier, or nil if that is not registered |
| TrackerFacts.KeepDeps | watcher.go:741-754 | without duplicates a sweep leaves a notifier exactly its marked dependencies |
| TrackerFacts.OthersKeep | watcher.go:747-753 | a sweep keeps the other notifiers' pairs in order, whatever their marks |
| TrackerFacts.KeepAppend | watcher.go:747-753 | what a sweep keeps comes in tracking order |
| TrackerFacts.PairUpFacts | watcher.go:374-402 | tracking pairs and marks exactly one dependency, without a duplicate |
| TrackerFacts.NotifiersForMember | watcher.go:696-707 | the notifiers of a view are those paired with it |
| TrackerFacts.NotifiersForAppend | watcher.go:701-705 | the notifiers of a view come in tracking order |
| Watching.Watcher.Register | watcher.go:347-349 | succeeds, and adds all, exactly if no ID is known |
| Watching.RegisterTwice | watcher.go:343-349 | a notifier named twice in one call is accepted; in a second call it is refused |
| Watching.RefusedRegister | watcher.go:595-607 | a refused call changes nothing, even if some of its IDs are new |
| Watching.Watcher.Deregister | watcher.go:352-359 | unregisters all first, then marks and sweeps for each in turn |
| Watching.Watcher.TrackPair | watcher.go:374-402 | marks, looks up, creates; panics exactly for an unknown notifier without that pair |
| Watching.Watcher.Track | watcher.go:366-369 | never panics: an unknown notifier is registered on the way |
| Watching.Watcher.Poll | watcher.go:407-419 | polls are started exactly on the named views that are in the map, or on all of it if none is named |
| Watching.PollsExactly | watcher.go:407-419 | Poll starts exactly the polls of the named views that are in the map |
| Watching.RecallPolls | watcher.go:423-435 | a recall that hits starts no poll, one that misses only that of the view in the map |
| Watching.DeliveriesDeliver | watcher.go:271-297 | after any deliveries every delivered ID holds the data of its last one in the cache, every other ID what it held |
| Watching.Watcher.Recall | watcher.go:423-435 | tracks before it reads the cache; a hit counts as read, a miss starts the poll of the view in the map |
| Watching.Watcher.DataUpdate | watcher.go:271-280 | replaces the cached value of the view and no other, then sets the flags of the paired templates in order and reports those not buffering; panics exactly if one of them is not registered any more, after the flags before it |
| Watching.Watcher.Drain | watcher.go:286-297 | after a drained batch each delivered ID holds the data of its last delivery, every other ID what it held; exactly the templates paired with one of them are dirty and reported once; panics exactly if a delivery concerns an unregistered notifier |
| Watching.Watcher.WaitOnce | watcher.go:262-322 | reports the templates a data batch concerns that are not buffering, or the triggers received; nothing to report and no error exactly when every template concerned is buffering |
| Watching.Watcher.Wait | watcher.go:211-229 | returns at the first arrival with something to report; the cache then holds the last delivery of each ID up to it and no more; stop and deadline are not errors; panics at the first arrival that makes it |
| Watching.Watcher.Stop | watcher.go:471-489 | every view stopped and forgotten, the cache empty, the pairs kept |
| Integrity.NoLeakNoDoubleStop | watcher.go:366-435 | over any run, panics and Stop included: every view that entered the map is in it now or was stopped, once and not both, and only such views were polled |
| Integrity.RecallAfterStop | watcher.go:471-489 | after Stop every recall misses; one for a pair already tracked has no view left and starts no poll, any other starts that of its new view |
| Integrity.ConservedSweep | watcher.go:755-762 | a sweep stops exactly the views it takes out and deletes exactly their cache entries |
| Integrity.TrackEffect | watcher.go:374-402 | a track that does not panic leaves its pair, marked, and the relation sound |
| Integrity.RecallEffect | watcher.go:423-435 | a recall pairs and marks its dependency; it is unread afterwards exactly if it missed, and then its view is polled |
| Integrity.SweepEffect | watcher.go:741-763 | a sweep keeps the relation sound, loses nothing that is still named, and strands exactly the like-named views |
| Integrity.DeregisterEffect | watcher.go:352-359 | however many are named, exactly their pairs go, and no pair is left whose notifier is unknown |
| Integrity.SoundNeverFatal | watcher.go:696-707 | in a sound state no update meets a nil notifier: all it concerns are registered |
| Integrity.DeregisterWindow | watcher.go:352-359 | between the locks of Deregister an update of a dependency meets a nil notifier exactly if the dependency is paired with a leaving one that is still to be swept |
| Integrity.PanicSound | watcher.go:657-668 | a recall that panics leaves the relation sound |
| Integrity.SoundStep | watcher.go:352-435 | every operation but Stop keeps the relation sound |
| Integrity.SoundRun | watcher.go:352-435 | so it is sound in every state reachable before Stop: no duplicate pair, notifiers registered, views present, reads cached |
| Integrity.NotifiersForDistinct | watcher.go:696-707 | in a sound state an update reaches each paired notifier once |
| Integrity.ExactSweepAll | watcher.go:352-359 | collecting for several notifiers leaves no garbage if the ID spaces are disjoint |
| Integrity.ExactStep | watcher.go:352-435 | with disjoint IDs and known notifiers every operation keeps the views exactly the paired ones |
| Integrity.ExactRun | watcher.go:352-435 | so the keys of views always equal the views named in tracked |
| Integrity.SweepExactIff | watcher.go:741-763 | without disjointness: a sweep leaves no garbage exactly if no view to drop bears the ID of a notifier with a remaining pair |
| Integrity.StrandedStaysIff | watcher.go:749-762 | in any state: a view nobody is paired with outlives a sweep exactly if a pair that the sweep keeps has a notifier of its name |
| Integrity.LikeNamedViewSurvives | watcher.go:749-757 | a concrete run: a dependency named like a template survives its own sweep while that template keeps a pair, and goes when it is deregistered |
| Integrity.PanicStrands | watcher.go:657-668 | the panic on an unknown notifier leaves an unpaired view behind exactly if no one else uses that dependency |
| Resolving.ExecuteTemplate | template.go:172-205 | executing through the watcher is the specified execution: what was asked, what was answered, how it ended |
| Resolving.Run | resolver.go:60-92 | mark, execute, sweep unless there was an error (no news counts as one), report |
| Resolving.ExecuteEffect | watcher.go:423-435 | an execution adds exactly what it recalled to the template's pairs and marks, keeps the cache and the other templates' pairs, and polls every miss |
| Resolving.ExecuteAnswers | watcher.go:426-432 | all answers of one execution come from one state of the cache |
| Resolving.FreshRunExact | resolver.go:64-91 | after a render the pairs are exactly the dependencies recalled, the others' pairs are kept in order, Complete holds exactly if every recall hit, the content is kept and the flag is down |
| Resolving.OtherRunsRemoveNothing | resolver.go:68-73 | a Run without news or with an error removes no pair and stops no view; the failed one has used up the dirty flag |
| Resolving.FlagIs | template.go:148-164 | over any history of runs and notifications: a run takes the flag whatever becomes of it, only a notification sets it |
| Resolving.KeepsLastRendered | template.go:173-202 | the content kept is that of the last run that rendered, however many failed or had no news since |
| Resolving.NoChangeRepeats | template.go:173-176 | after any history a run reports no change exactly if it was not notified since the one before, and repeats the contents last rendered |
| Resolving.ExecuteStopsNothing | watcher.go:423-435 | no execution stops a view |
| Convergence.ForeignStep | watcher.go:711-722 | data arrivals and other templates' operations, collections included, leave a template its pairs, views, cached values and Complete answer |
| Convergence.FollowsPath | template.go:196-202 | as long as the cache can answer, an execution follows the path it would take on the source |
| Convergence.AllHitsEval | template.go:196-202 | a render whose every recall hit equals the pure evaluation on the source |
| Convergence.WaitDelivers | watcher.go:286-297 | delivering the outstanding views in any order, with repeats, is the Wait of the loop |
| Convergence.Advances | watcher.go:271-280 | every interval gets at least one more recall of the path answered, and the template is dirty |
| Convergence.Converges | resolver.go:57-92 | with j recalls already answered, k - j + 1 runs are enough |
| Convergence.RunWaitLoopConverges | resolver.go:57-92 | with k recalls on the source's path the loop is Complete after at most k + 1 runs, yields the pure evaluation, and leaves the template at rest, showing it and paired with all it depends on |
| Following.NewsReplaces | watcher.go:271-297 | once the cached dependencies on which a new source differs are delivered, the cache is the new source's |
| Following.SourceChanges | watcher.go:262-322 | from any state caching one source, once a Wait has delivered what differs on another, a template paired with one such dependency is dirty and the loop yields its evaluation on the new source |
| Following.SamePath | template.go:196-202 | a template whose path does not change evaluates to the same |
| Following.FollowsOnce | resolver.go:57-92 | a template showing one source comes to show the next, whether or not it is concerned |
| Following.FollowsTheSource | resolver.go:57-92 | over any number of changes of the source, each delivered: the content is the evaluation on the latest |
| Updates.OwnRecall | watcher.go:423-435 | recalls keep the claim because the pair is there before the cache is read |
| Updates.OwnCollect | watcher.go:741-763 | a sweep evicts nothing the finished render was made from |
| Updates.InvStep | watcher.go:271-280 | every step of every thread keeps the claim |
| Updates.InvHolds | watcher.go:271-280 | it holds in every interleaving |
| Updates.SpoiledIff | template.go:174-200 | which templates carry a failure can be read off the steps: those whose last ended execution failed |
| Updates.NoLostUpdate | watcher.go:271-280 | in every interleaving, unless the last execution of the template to end failed: if the cache holds another version than the last render used, the template is dirty, about to be notified, or executing |
| Updates.NoLostUpdateWithoutFailure | watcher.go:271-280 | in particular in runs in which the template never fails |
| Updates.QuietMeansCurrent | template.go:171-205 | at rest, with the flag down and the last execution not failed, the last render shows what the cache holds |
| Updates.FailLosesTheFlag | template.go:174-200 | a failing execution leaves newer data unrendered and unsignalled |
| Coherence.CoherentStep | watcher.go:271-280 | every step with live deliveries keeps the cache coherent with the live views |
| Coherence.CoherentRun | view.go:197-206 | so it is in every such run: a difference means a delivery on its way |
| Coherence.QuiescentCache | watcher.go:271-297 | at rest the cache is exactly the live views' data |
| Coherence.SaveCoherentIff | watcher.go:271-273 | one unguarded save keeps coherence exactly if the view is live, or its successor has the same data or is about to deliver |
| Coherence.SweptViewResurrects | watcher.go:755-762 | saving a swept view's delivery leaves an entry that answers for a view without data |
| Coherence.OrphanIsNeverPolled | watcher.go:423-435 | and the view a recall then creates is not polled by recalls, while its pair counts as read |
| Viewing.View.PollingFlag | view.go:156-170 | tests and sets in one step |
| Viewing.View.Absorb | view.go:346-381 | one response after the staleness test: dropped, index restarted, or stored |
| Viewing.View.Fetch | view.go:275-386 | the loop makes the specified requests and ends with the specified outcome and state |
| Viewing.RequestsWaitOnIndex | view.go:296-305 | request number k of a fetch waits on the index the view holds after the k replies before it, and allows stale data exactly if stale reads are on and the reply before was not dropped as stale |
| Viewing.FetchEnds | view.go:307-384 | the reply that ended a fetch decides what it reports: its data and index, its error, or silence |
| Viewing.DeliveryThenRequest | view.go:296-305 | the first request after a delivery waits on the index that came with the data |
| Viewing.FetchLived | view.go:336-381 | what a fetch leaves of the view is what its replies make of it, one by one |
| Viewing.WaitsOnZeroIff | view.go:346-365 | over any life a view waits on index 0 exactly if nothing has set the index, or what set it last forgot it, regressed, or carried index 0 |
| Viewing.SilentIff | view.go:275-319 | a fetch reports neither data nor an error exactly if it found the view stopped or its request cancelled while it was still asking |
| Viewing.SilentBy | view.go:286-292 | and knows whether it was stopped or cancelled |
| Viewing.NeverSilent | view.go:270-274 | so without a stop or a cancelled request it keeps its promise |
| Viewing.IndexGrowsOrRestarts | view.go:346-365 | the index strictly increases to the response's, stays, or restarts at 0, the last exactly on a regression |
| Viewing.StaleThenFresh | view.go:336-344 | after a response dropped as stale the next request insists on fresh data and its response is not dropped as stale |
| Viewing.DeliversFresh | view.go:275-398 | for any upstream: deliveries over any number of fetches are the data that got past the index test, nil filtered for blocking queries, adjacent repeats removed |
| Viewing.FetchIsLife | view.go:275-386 | one fetch is one delivery's worth of that sequence, and failures hand over to the next |
| Viewing.FreshIsAll | view.go:346-371 | with faithful indices the index test hides no change |
| Viewing.DeliversEveryChange | view.go:275-398 | so a new view delivers every change once and in order, however often fetches fail and the index is forgotten |
| Viewing.SettlesIff | view.go:346-366 | once the server settled, two passing responses suffice exactly if the data is already held or the index is positive and not the view's own; otherwise no number does |
| Viewing.SettledIndex | view.go:358-365 | two passing responses bring the index to the server's |
| Polling.TakeTurn | view.go:189-266 | one turn of the loop: push, retry, offer, leave, or stay in the select |
| Polling.Poll | view.go:176-268 | runs only if no other poll is past the flag; the flag is down again exactly if the poll has returned; pushes, error and retry counts are the specified ones |
| Polling.GetsStuckIff | view.go:194-266 | the poll of an unstopped view stays in its select for good, flag up, exactly if one of its fetches is cancelled while still asking |
| Polling.NeverStuck | view.go:194-266 | without a cancelled reply it never does |
| Polling.LeavesIff | view.go:237-263 | the poll of an unstopped view returns exactly by offering an error |
| Polling.FoundStoppedReturns | view.go:264-265 | a view that a fetch finds stopped lets its poll go without a push or an error |
| Polling.StoppedDependencySticks | view.go:308-318 | a dependency that an earlier view stopped makes its new view's poll stick in its first fetch |
| Polling.PushesFresh | view.go:189-206 | for any upstream, failures and retries: an unstopped view's poll pushes the data its fetches received that got past the index test, nil filtered, adjacent repeats removed |
| Polling.PushesEveryChange | view.go:189-206 | for a new view of a faithful upstream that is every change, once and in order |
| Polling.RequestsOverLife | view.go:296-305 | each request of each fetch of a poll waits on the index that all replies to it and to the earlier fetches have left |
| Polling.RetriedIff | view.go:218-263 | for every policy and count: a failed fetch is followed by another exactly if the error is no 400, there is a retry function and it grants the count, which starts over if a success of the same fetch was heard; otherwise the error is offered |
| Polling.OffersFirstUnretried | view.go:218-263 | a whole poll ends with its first failure that is a 400, or has no retry function, or is never granted |
| Polling.RetriesBounded | view.go:237-253 | with retries granted below n the count never exceeds n, successes and stops included |
| Polling.OffersAfterRetries | view.go:218-263 | a run of retryable failures offers the error of fetch n + 1, having pushed nothing |
| Polling.DeliveryRestoresRetries | view.go:197-200 | a delivery gives a later outage its full n retries again |
| Polling.OneAtATimeStep | view.go:180-187 | every step of every poll keeps one poll past the flag |
| Polling.SinglePoller | view.go:176-268 | over any run: at most one poll past the flag, and on an unstopped view at most one fetch running |
| Buffering.Timer.InactiveTick | buffer_period.go:194-206 | starts a period: armed for min, deadline at max |
| Buffering.Timer.ActiveTick | buffer_period.go:223-238 | snoozes by min or up to the deadline, re-arming the timer only then; does nothing if the trigger went out first |
| Buffering.Timer.Tick | buffer_period.go:177-184 | a tick is the one or the other, by the flag |
| Buffering.Timers.Add | buffer_period.go:82-92 | a template that has a timer keeps it; others are not touched |
| Buffering.Timers.IsBuffering | buffer_period.go:103-106 | buffering means having a timer |
| Buffering.Timers.Tick | buffer_period.go:115-124 | ticks one template's timer and no other |
| Buffering.Timers.Run | buffer_period.go:56-67 | IDs received are noted and passed on, each once and in order |
| Buffering.Timers.Reset | buffer_period.go:127-135 | resets one template's timer and forgets its note |
| Buffering.Timers.Stop | buffer_period.go:71-79 | every timer is stopped and none is left |
| Buffering.ClosedForm | buffer_period.go:177-238 | the armed time after any ordered ticks, for any settings |
| Buffering.Debounce | buffer_period.go:177-238 | for min <= max and ticks before the armed time it is the earlier of last tick + min and first tick + max, and no tick moves it earlier |
| Buffering.HardDeadline | buffer_period.go:177-238 | for any settings it is at most first tick + the larger of min and max |
| Buffering.MovedEarlierIff | buffer_period.go:223-238 | a second tick moves the timer earlier exactly if max < min and it comes before the deadline |
| Triggers.TriggersNeverExceedActivations | buffer_period.go:194-250 | in every interleaving, resets included, ids sent never exceed inactive-to-active transitions |
| Triggers.OneWaitsStep | buffer_period.go:194-238 | without resets every step keeps at most the latest goroutine unfired, and the flag tells about it |
| Triggers.TickIsCovered | buffer_period.go:177-238 | after each tick its period is active with exactly one goroutine waiting to send, or the id was sent after the tick began |
| Triggers.ResetCanComeTooLate | buffer_period.go:241-250 | a reset does not recall a trigger whose goroutine has left its select |
| Strings.PrefixSplit | tfunc/maps.go:30-42 | a + "/" is a prefix of b exactly if a's parts are a proper prefix of b's |
| Strings.SortSorts | tfunc/maps.go:59 | sorting gives an ordered permutation |
| Exploding.InsertFailsIff | tfunc/maps.go:30-42 | inserting fails exactly if a proper prefix of the key's path holds a value |
| Exploding.InsertFind | tfunc/maps.go:29-49 | otherwise the flat map is the old one without what was below the key, with the key set, or unchanged if the key's last part is empty |
| Exploding.InsertDirs | tfunc/maps.go:35-37 | the directories gained are the key's proper prefixes, the ones lost lie at or below a stored key |
| Exploding.SameTree | tfunc/maps.go:17-25 | values and directories determine the nested map |
| Exploding.ExplodedFind | tfunc/maps.go:17-25 | what a list of pairs leaves at a path: the last pair's value, unless a later one stored above it |
| Exploding.ExplodedDirs | tfunc/maps.go:17-25 | the directories it leaves |
| Exploding.ExplodeFailsIff | tfunc/maps.go:17-25 | explode fails exactly if a storing key is continued by a later key |
| Flattening.ExplodeValues | tfunc/maps.go:17-25 | prefix-free pairs round-trip: under each path exactly its value, and nothing else |
| Flattening.ExplodeDirectories | tfunc/maps.go:17-25 | and the directories are the proper prefixes of the keys |
| Flattening.OrderIrrelevant | tfunc/maps.go:17-25 | the same prefix-free pairs give the same nested map in every order |
| Flattening.ValuesSurviveIff | tfunc/maps.go:45-46 | a successful explode keeps every value exactly if no storing key continues another; else a leaf replaced a subtree |
| Flattening.SortedExplodeFailsIff | tfunc/maps.go:52-67 | in sorted order explode fails exactly if some storing key is continued by any other, so nothing is replaced silently |
| Flattening.MapUnfolds | tfunc/maps.go:52-67 | otherwise the result holds each value under its key and the directories of the keys |
| Flattening.UnfoldsInjective | tfunc/maps.go:52-67 | the result determines the value of every storing key |
| Flattening.StoresIff | tfunc/maps.go:45 | the keys that store nothing are the empty one and those ending in "/" |
| Nesting.ExplodeHelper | tfunc/maps.go:29-50 | in place on the heap it does what insertion does to the tree, and a failure leaves the map as it was |
| Nesting.Explode | tfunc/maps.go:17-25 | the loop builds exactly the exploded tree, or fails when it has to |
| Nesting.ExplodeMap | tfunc/maps.go:52-67 | fails exactly if two input keys clash, else holds exactly the input, in whatever order the keys were met |
| Grammars.MatchIsTheMatch | internal/dependency/dependency.go:224-240 | any way to match an expression is the way found |
| Grammars.Classes | internal/dependency/dependency.go:18-27 | the character classes, character by character |
| Grammars.Unambiguous | internal/dependency/dependency.go:18-27 | the expressions match in at most one way |
| Grammars.MatchIff | internal/dependency/dependency.go:224-240 | groups are found exactly if the text matches |
| Grammars.TextInjective | internal/dependency/dependency.go:18-27 | the printed groups determine the groups |
| Querying.ReadFilter | internal/dependency/health_service.go:159-181 | the loop drops blanks, reports the first unknown status and sorts the rest; no filter means passing |
| Querying.OneWordFilter | internal/dependency/health_service.go:162-176 | a filter of one word is accepted exactly if it is one of the five statuses, and is then that word |
| Querying.FullTexts | internal/dependency/health_service.go:152-192 | texts with all their parts are accepted by the service and nodes parsers, each part in its field |
| Querying.FullNode | internal/dependency/catalog_node.go:41-52 | a node name, with or without a datacenter, is accepted as such |
| Querying.StatusesRoundTrip | internal/dependency/health_service.go:303-305 | a nonempty list of statuses printed and read again is the same list |
| Querying.AcceptedShape | internal/dependency/health_service.go:183-191 | every accepted query is well-formed, and passingOnly means the list is passing alone |
| Querying.ReparseIff | internal/dependency/health_service.go:292-318 | for each of the four parsers: reading the text inside the ID gives the same query, exactly unless it is a health query whose filter named no status |
| Querying.CatalogIdQuotes | internal/dependency/catalog_service.go:136-148 | a catalog query's ID quotes the text it was read from; the empty text has an ID without parentheses |
| Querying.HealthIdQuotes | internal/dependency/health_service.go:292-318 | a health query's ID quotes its text up to the filter, then the statuses in order |
| Querying.SameKind | internal/dependency/catalog_nodes.go:109-122 | IDs of different kinds of query differ |
| Querying.SameIdIff | internal/dependency/catalog_node.go:134-144 | two accepted queries share a cache key exactly if they differ in the connect flag at most |
| Querying.ConnectCollides | internal/dependency/health_service.go:84-91 | the plain and the connect query for one text do share it |
| Querying.BlankFilter | internal/dependency/health_service.go:160-176 | a filter of commas is accepted; the text in its ID reads back as the query for passing checks |
| Querying.AcceptStatus | internal/dependency/health_service.go:330-341 | accepts exactly a listed status, or all of them for "any" or an empty list |
| Leasing.LeaseCheckWait | internal/dependency/vault_common.go:67-132 | the rotation's time decides before the secret ID's, the certificate's, the token's and the secret's lease; panics exactly if a field it consults is no JSON number |
| Leasing.Decides | internal/dependency/vault_common.go:69-109 | a TTL counts one second more, an expiration from now on, a token's positive lease goes before the secret's, and a secret with a lease ID is not looked into |
| Leasing.NoPositiveTtl | internal/dependency/vault_common.go:87-109 | a TTL that is not positive counts for nothing |
| Leasing.PanicsIff | internal/dependency/vault_common.go:78-104 | the panics of the type assertions, exactly |
| Leasing.TokenDecidesRenewal | internal/dependency/vault_common.go:135-140 | a token says itself whether it can be renewed |
| Leasing.WaitBounds | internal/dependency/vault_common.go:112-131 | for every secret, up to truncation: a sixth to a third of a renewable lease, all of a rotation's time, 85 to 95 percent of any other lease, where the lease is what 64 bits of nanoseconds make of it |
| Leasing.SpreadsEvenly | internal/dependency/vault_common.go:115-129 | the random number spreads the share evenly over its range |
| Leasing.NoJitter | internal/dependency/vault_common.go:123-129 | without jitter a lease that cannot be renewed is slept for in full |
| Leasing.SleepsIff | internal/dependency/vault_common.go:69-113 | from a positive lease: a base that fits 64 bits of nanoseconds gives a positive sleep exactly unless an expired certificate decides; one that does not fit, exactly if the overflow leaves a positive remainder |
| Leasing.LongLeases | internal/dependency/vault_common.go:113 | a lease of 9223372037 seconds is not slept for; one of 18446744074 seconds is, for less than a second |
| Leasing.SignOfWait | internal/dependency/vault_common.go:113-131 | for every secret: the sleep is positive exactly if the lease in 64 bits of nanoseconds is; no positive one is truncated away |
| Secrets.VaultReadQuery.RenewSecret | internal/dependency/vault_common.go:25-46 | renewals update the secret in order until the renewer is done or the query is stopped |
| Secrets.RenewalLosesNothing | internal/dependency/vault_common.go:150-200 | what an update leaves out stays, what it brings stands, and twice is once |
| Secrets.TransformedLease | internal/dependency/vault_common.go:142-149 | a read secret has a positive lease exactly if the answer has, or has none and the default is positive |
| Secrets.VaultReadQuery.Fetch | internal/dependency/vault_read.go:59-93 | one call: stop, sleep, renew, read, leave the next sleep |
| Secrets.RenewalDecides | internal/dependency/vault_read.go:75-80 | with a renewable secret kept a call reads only after a renewal that came to its end; one that fails or is stopped means no read and no secret, and a stopped one leaves the query stopped |
| Secrets.RenewsOnlyRenewable | internal/dependency/vault_read.go:75-80 | nothing else is renewed |
| Secrets.ReturnsWhatItRead | internal/dependency/vault_read.go:82-93 | a secret is returned exactly if it was read, last, from the answer, and is then the one kept |
| Secrets.StoppedReadsNothing | internal/dependency/vault_read.go:60-71 | a stopped query reads nothing if it owes no sleep or a positive one, or picks the stop |
| Secrets.StepKeeps | internal/dependency/vault_read.go:59-93 | every call keeps the channel equal to the sleep still owed and the secret kept in step with the last event, and its send finds the slot empty |
| Secrets.NeverBlocks | internal/dependency/vault_read.go:87-90 | in no sequence of calls does the send block |
| Secrets.SleepsBetweenReads | internal/dependency/vault_read.go:59-93 | between two successive reads, the first not renewable, lies exactly the sleep leaseCheckWait gave for it, also when fetches in between failed |
| Secrets.RenewsBetweenReads | internal/dependency/vault_read.go:75-80 | between two successive reads, the first renewable, lies at least one renewal that came to its end, and no sleep |
| Secrets.StoppedStaysStopped | internal/dependency/vault_read.go:60-63 | a stopped query with an empty channel never sleeps or reads again |

## Left out

- Consul and Vault clients, HTTP, TLS and the other dependency types: foreign calls; a fetch's results are parameters.
- text/template parsing and md5 template IDs: replaced by strategies and abstract IDs. go-bexpr filters are foreign.
- The V1 option parsers and the KV queries: namespaces are missing from some of their IDs and a leading "/" is stripped, so their IDs make no such promise.
- Real time, rate limiting between fetches and the dither of sleeps: they delay steps and change no state.
- Liveness: no claim that a goroutine, a retry or a trigger eventually runs, nor about a full trigger channel.
- Events and logging: callbacks without effect on the state.
- renderer.go, file_perms, tfunc/file.go, file and token watchers: file-system I/O.
- Watcher.Watch: the loop of Wait that hands the notifiers to a channel instead of returning.
- Watching.Watcher.WaitOnce: the `waitingCh` notice, which exists for tests, is left out.
- Watching.Watcher.Stop: the buffer timers and the stop channel are not part of this state; `Buffering.Timers.Stop` models the former.
- Watching.Watcher.DataUpdate: whether a template is buffering is a parameter, and the tick it causes is `Buffering.Timers.Tick`.
- Resolving.Run: a panic of a recall ends the Run with an error, as text/template reports a panic of a function that it calls; text/template itself is not part of this model.
- Integrity.DeregisterWindow: other operations than updates do not come in between; what holds of them then is what SoundBut, with the leaving notifiers, keeps.
- Following.FollowsTheSource: templates that never fail, as in the loop; one that fails keeps its content and has used up its flag, which Resolving.NoChangeRepeats and Updates.FailLosesTheFlag cover.
- Updates.NoLostUpdate: one resolver thread per template and one waiter, as the source's callers are told to have; values are versions, so saving an equal value again counts as new.
- Coherence.CoherentRun: assumes no delivery of a swept view is saved; the source does not check, and SaveCoherentIff says what then happens.
- Viewing.View.Fetch: durations of staleness are natural numbers; options other than staleness and the wait index do not influence the loop.
- Buffering.ClosedForm: ticks come in order of time and no trigger is sent or reset in between; sending is in Triggers.
- Nesting.ExplodeMap: values that are maps themselves are not modelled; the source would share them with its input, and a longer key could then write into them.
- Exploding.InsertFailsIff: the text of the error message is not modelled.
- Grammars.MatchIsTheMatch: the regular-expression engine is a foreign library; what the four expressions match is stated and decided directly, on strings of characters.
- Querying.ReadFilter: trimming white space is left out, since no white space gets past the filter's expression.
- Leasing.LeaseCheckWait: computed over the reals, as are the bounds.
- Leasing.WaitBounds: the product is taken over the reals, so float64 rounding (relative error below 2^-52) is not covered.
- Secrets.VaultReadQuery.Fetch: the path, KV version and query values of a read, and the parts of a secret that do not influence sleeping, are not modelled; calls come one after the other, as a view makes them.
- Secrets.VaultReadQuery.Stop: a second Stop closes a closed channel and panics in the source; Integrity.NoLeakNoDoubleStop shows that the watcher stops no view, and so no query, twice.
