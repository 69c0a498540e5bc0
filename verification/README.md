# A verified model of the trading bots' core

This project models the parts of a crypto trading system whose correctness is not visible from any
single function, and proves what they keep over whole runs:

* **WebSocket sessions** (`Dispatcher`, `Client`, `Pool`, `PoolRuns`, `AbandonedClients`, `Adapter`,
  `SubscribeManager`, `Holdings`, `UniverseRuns`, `RefreshRuns`): request/response correlation, the connect loop against `RoundTrip`, the first-fit pool of
  connections with rollback and replay, reference counting above it, and the universe of symbols on top.
* **Order-book walls** (`Wall`, `WallDetector`, `WallRuns`, `WallEvents`): a live aggregate, the event stream it
  emits, and the replay of that stream.
* **Order sizing and pricing** (`DecMath`, `TradeCalc`, `SanityCheck`, `Candidates`, `Tpsl`, `Safety`,
  `Allocator`, `FrontRun`).
* **Bounded estimators** (`TimeSync`, `Klines`).

## How it is modelled

Each source file has a module of its own; runs over it have theirs. Where the source updates fields, a class performs the update in place and its
`ensures` ties the whole new state to a specification function of the old one; the lemmas are about
those functions. Concurrency is a step system: one step is one lock-protected section, one channel
operation or one environment event (dial, drop, failing write, cancelled context), and `Run`/`IsRun`
ranges over every finite sequence of steps. `View()` collects the fields a lock protects.

Prices, volumes and margins are exact reals; ticks and lots are floors and ceilings to whole multiples.
Clock readings, the order of Go's map iteration, the outcome of I/O and the exchange's answers are parameters or steps.

## What the proofs found in the code

Each of these is a lemma with the concrete run or the exact condition:

* A cleanup deletes by id, so it removes a later caller's entry exactly when that caller reuses the id
  (`pkg/ws/dispatcher.go:47-51`).
* `SendJSON` skips silently while disconnected. A redial between that and the second check of `RoundTrip`
  leaves the call waiting for a request that was never written (`pkg/ws/client.go:576-587`, `616-621`).
* The Connect loop of a pooled client runs on the context of the call that spawned it. When that context ends,
  whether the call is cancelled before it starts the loop, while it waits for readiness, or the context ends
  later, the client never dials again but stays in the pool with its room: later topics are routed to it
  without an error and reach no server (`pkg/ws/pool.go:243-272`, `pkg/ws/client.go:204-218`, `255`).
* Cancelling a re-subscribe drops the route and leaks its place for ever (`pkg/ws/pool.go:243-252`).
* A topic unsubscribed while it is on the replay's list is subscribed again (`pkg/ws/pool.go:180-195`, `281-303`).
* Ticker and depth of one symbol share a key, so the second of them never reaches the exchange, and one can be
  subscribed and the other unsubscribed (`internal/infrastructure/ws/ws.go:133-161`). A late failing subscribe
  can drop a newer flow set, and a flow that joined while it was under way keeps a key the exchange was never
  told of (`78-89`).
* A symbol whose subscribe failed stays in the universe and is not retried. A shutdown that overtakes a refresh
  leaves held keys behind: all new ones if the late subscribes succeed; if they all fail, as they do when the
  bot cancels the refresh's context first (`internal/bots/penny_jumper/application/penny_jumper_bot.go:235-242`),
  exactly those another flow holds (`internal/bots/penny_jumper/application/subscribe_manager.go:122-125`, `162-188`).
* Wall ids have one-second resolution and no side, so both sides of one futures book can share a stream
  (`internal/infrastructure/exchange/order_id.go:19-33`, `internal/bots/penny_jumper/application/wall_detector.go:197`).
* Replay keeps the last volume of a wall that was pulled; the live volume and the replay also differ between two emits of one step.
* The fallback of the IOC price's sanity check never helps: whenever the check fires, the fallback price is on
  the wrong side too. It fires for some price exactly when the scale rounds some tick away by more than one
  tick, and for some price on the grid exactly when by more than two (`pkg/tradecalc/calc.go:66-78`).
* The smoothed clock offset stops 3 ms short of a constant sample approached away from zero, and reaches one
  approached toward zero (`internal/infrastructure/timesync/sync.go:96-102`).
* `RoundToScale` is documented as banker's rounding (`pkg/decmath/decmath.go:58`) while `Decimal.Round` rounds halves
  away from zero. The tie rule is a parameter here, and every result holds for each rule.

## Model

| member | source | states |
|---|---|---|
| Dispatcher.RequestDispatcher.Register | pkg/ws/dispatcher.go:32-54 | succeeds exactly when open and the id not pending; the caller is handed the channel stored under the id, new, open and empty |
| Dispatcher.RequestDispatcher.Cancel | pkg/ws/dispatcher.go:47-51 | removes whatever entry the id has now |
| Dispatcher.RequestDispatcher.Claim | pkg/ws/dispatcher.go:59-68 | the locked half of Dispatch: the entry leaves the map and its channel is handed over |
| Dispatcher.RequestDispatcher.Send | pkg/ws/dispatcher.go:70 | the unlocked half: one value into that channel, which must be open and empty |
| Dispatcher.RequestDispatcher.Dispatch | pkg/ws/dispatcher.go:58-72 | uninterrupted: true exactly when the id was pending, and then claimed and delivered |
| Dispatcher.RequestDispatcher.AbortAll | pkg/ws/dispatcher.go:76-84 | the loop closes exactly the channels of the pending entries, each once, and empties the map |
| Dispatcher.RequestDispatcher.Close | pkg/ws/dispatcher.go:87-96 | AbortAll, and closed |
| Dispatcher.NeverPanicsOrBlocks | pkg/ws/dispatcher.go:32-96 | every interleaving of Register, cleanup, both halves of Dispatch, AbortAll, Close and receives: no send on a closed or full channel, no double close, at most one value per registration |
| Dispatcher.FatesAreExclusive | pkg/ws/dispatcher.go:32-96 | a registration is pending, claimed, answered or closed, never two of these, and if none a cleanup of its id has run |
| Dispatcher.LenCountsPending | pkg/ws/dispatcher.go:99-103 | in every interleaving Len is the number of registrations still pending |
| Dispatcher.RegisterHandsOverItsChannel | pkg/ws/dispatcher.go:32-54 | in every interleaving that channel was never handed to anyone before, and a refused Register changes nothing |
| Dispatcher.CloseCloses | pkg/ws/dispatcher.go:76-96 | in every interleaving Close and AbortAll close every pending channel and leave nothing pending, and only Close closes the dispatcher |
| Dispatcher.ClosedForEver | pkg/ws/dispatcher.go:36-38 | after Close nothing is pending and nothing registers, in every continuation |
| Dispatcher.CancelRemovesForeignEntry | pkg/ws/dispatcher.go:47-51 | a cleanup removes an entry it does not own if and only if the id was registered again |
| Dispatcher.CancelRemovesOnlyItsOwn | pkg/ws/dispatcher.go:30-54 | when no id is registered again before its cleanup ran, no cleanup removes another caller's entry |
| Dispatcher.ReusedIdLosesEntry | pkg/ws/dispatcher.go:47-51 | the run in which a late cleanup takes a second caller's entry |
| Client.Client.Dial | pkg/ws/client.go:290-293 | a successful dial connects on a new connection |
| Client.Client.ConnectionLost | pkg/ws/client.go:243-246 | the flag is cleared before the dispatcher is aborted |
| Client.Client.SendJSON | pkg/ws/client.go:576-587 | nothing is written and no error returned while disconnected; a failing write is an error |
| Client.Client.CloseConn | pkg/ws/client.go:643-649 | Close clears the flag |
| Client.NoWaiterSurvivesAbort | pkg/ws/client.go:243-248 | with unique ids, over any number of reconnects: between AbortAll and the next dial no RoundTrip waits on an open registered channel |
| Client.WaiterIsOnLiveConnection | pkg/ws/client.go:604-635 | a call that can only wait has its request on the current connection, or skipped before a redial |
| Client.NoRedialNoLostRequest | pkg/ws/client.go:619-621 | without a redial nobody waits for a request that was never written |
| Client.RecheckOfSkippedRequest | pkg/ws/client.go:616-621 | the second check lets a skipped request through if and only if the client is connected again, on a later connection |
| Client.RecheckDecides | pkg/ws/client.go:619-623 | whatever became of the write, the call goes on to wait if and only if the client is connected |
| Client.RoundTripAnswers | pkg/ws/client.go:604-635 | the run from the start on a healthy connection, for any id and response: the call returns that response |
| Client.WaiterGetsItsResponse | pkg/ws/client.go:522-531 | in every interleaving, a response that comes in for a waiting call and is delivered is what the call gets; an empty one reads as not connected |
| Client.AnswersAreTheCallsOwn | pkg/ws/client.go:604-635 | in every interleaving, an answer a call returned came in as the response to that call's own id |
| Client.EveryExit | pkg/ws/client.go:609-635 | the other ways out of a call, each with its outcome, and its entry is gone when it returns |
| Client.RedialLosesRequest | pkg/ws/client.go:604-635 | the run in which it does |
| Pool.Pool.GetOrCreatePublicClientIdx | pkg/ws/pool.go:156-178 | the scan finds the first client of that URL with room, else appends one |
| Pool.Pool.SubscribeSection | pkg/ws/pool.go:217-241 | the lock section of a subscribe: place, count and record, or replace the message of a routed topic |
| Pool.Pool.RollbackSection | pkg/ws/pool.go:245-251 | the lock section after a cancel: route and record go, the count only for a route this call made |
| Pool.Pool.UnsubscribeSection | pkg/ws/pool.go:282-295 | the lock section of an unsubscribe, and the client that must still be told |
| Pool.Pool.ReplaySnapshot | pkg/ws/pool.go:181-188 | exactly the topics recorded for that client |
| Pool.SubscribeIsAccounted | pkg/ws/pool.go:156-178 | the route goes to a client of the URL asked for, the public one by default, the first with room; a new client is made only when every one of that URL is at the limit; the message is recorded, the books stay balanced, nothing else changes |
| Pool.RollbackIsAccounted | pkg/ws/pool.go:243-252 | a rollback restores the place of a new route and leaks that of an older one |
| PoolRuns.NoSubscriptionIsLost | pkg/ws/pool.go:180-303 | every interleaving with dials, drops, failing writes and replays: a topic routed to a live client was asked for on its current connection, or is on the replay's list, or somebody is about to send it |
| PoolRuns.QuiescentServerHasEveryTopic | pkg/ws/pool.go:180-273 | with no call in flight a reading client's peer holds every topic routed to it |
| PoolRuns.CountsAreExact | pkg/ws/pool.go:216-303 | routes and subscriptions always name the same topics and clients; each count is the routed topics plus the cancelled re-subscribes, within the limit |
| PoolRuns.RoutesLeadWhereAsked | pkg/ws/pool.go:216-241 | over every run a topic is routed to a client of the URL of the subscribe that made its route, and recorded with the message of the latest |
| PoolRuns.LeaksOnlyGrow | pkg/ws/pool.go:243-252 | a leaked place never comes back |
| PoolRuns.StepIsFreshIffGentle | pkg/ws/pool.go:180-303 | a step leaves a peer with a topic nobody routes there if and only if it cancels or unsubscribes a topic the peer has, or the replay is about to give it |
| PoolRuns.QuiescentServerIsExact | pkg/ws/pool.go:180-303 | without such steps a quiescent peer holds exactly the topics routed to its client |
| PoolRuns.ReplayResurrectsTopic | pkg/ws/pool.go:190-194 | the replay asks again for a topic that was unsubscribed after the snapshot |
| PoolRuns.ReplayListIsReached | pkg/ws/pool.go:180-195 | the run from the start, for every configuration, that puts a topic on the replay's list with no call on it in flight |
| PoolRuns.OverlapDoubleDecrements | pkg/ws/pool.go:243-252 | overlapping calls on one topic: a cancel after an unsubscribe takes the count one below the truth |
| PoolRuns.RollbackBalancesIff | pkg/ws/pool.go:243-252 | a rollback, of a new route or an old one, keeps the books balanced if and only if the topic is still routed to the client it counts down |
| AbandonedClients.CancelledSpawnAbandons | pkg/ws/pool.go:243-268 | cancelling the spawning subscribe, before or after it started the loop, abandons the client |
| AbandonedClients.AbandonedForEver | pkg/ws/client.go:204-258 | an abandoned client never dials again, in any continuation |
| AbandonedClients.NeverDialsAgainIff | pkg/ws/client.go:204-258 | a client never dials again if and only if its loop was never started and nobody will start it, or its context is done |
| AbandonedClients.AbandonedStep | pkg/ws/pool.go:243-268 | a step abandons a client if and only if it ends its context: a cancel of the spawning call, or the end of that call's context later |
| AbandonedClients.ServedIffNotAbandoned | pkg/ws/pool.go:180-273 | a topic routed to an unconnected client can still reach its server if and only if the client is not abandoned |
| AbandonedClients.DeafClientSwallowsTopic | pkg/ws/pool.go:156-273 | any subscribe for which an abandoned, disconnected client is the first with room returns without error and is never served |
| AbandonedClients.AbandonedClientSwallowsTopic | pkg/ws/pool.go:156-273 | the runs from the start, cancelled before or after the loop started, in which that happens to any topic |
| Adapter.ManagerAdapter.SubscribeInternal | internal/infrastructure/ws/ws.go:63-92 | joins the flow set; the first flow makes the physical call and is undone when that fails |
| Adapter.ManagerAdapter.UnsubscribeInternal | internal/infrastructure/ws/ws.go:95-119 | leaves the flow set; the last flow makes the physical call |
| Adapter.SubscribeEffect | internal/infrastructure/ws/ws.go:63-92 | who holds each key and what the exchange is told after a subscribe; other keys unchanged |
| Adapter.UnsubscribeEffect | internal/infrastructure/ws/ws.go:95-119 | the same after an unsubscribe |
| Adapter.PhysicalCallsAlternate | internal/infrastructure/ws/ws.go:63-119 | over every sequence of calls: on each key successful subscribes and unsubscribes alternate starting with a subscribe, and the key is stored exactly while some flow holds it |
| Adapter.FeedCallsAlternate | internal/infrastructure/ws/ws.go:63-119 | when no two feeds of the calls share a key, the calls of each single feed alternate, and the exchange is subscribed exactly while a flow holds it |
| Adapter.SharedKeyMixesFeeds | internal/infrastructure/ws/ws.go:121-200 | for any two feeds that share a key, the run in which one is subscribed and the other unsubscribed |
| Adapter.EachAlternatesIffKeysDiffer | internal/infrastructure/ws/ws.go:63-200 | over every run on given feeds the calls of each single feed alternate if and only if no two of the feeds share a key |
| Adapter.HoldersAreTheCallers | internal/infrastructure/ws/ws.go:63-119 | the holders of a key are the flows whose last call on it was a subscribe that did not fail |
| Adapter.SharedKeys | internal/infrastructure/ws/ws.go:121-200 | which feeds are counted together, over all kinds: those of one name, and a plain name that spells out another feed's key |
| Adapter.DepthBehindTickerIsSilent | internal/infrastructure/ws/ws.go:133-152 | a depth subscriber behind a ticker subscriber never reaches the exchange |
| Adapter.NoEmptySetIsStored | internal/infrastructure/ws/ws.go:63-119 | even when calls overlap no stored flow set is empty |
| Adapter.FailureDropsForeignSet | internal/infrastructure/ws/ws.go:82-89 | a late failure drops a set it does not own if and only if its own set has emptied |
| Adapter.LateFailureForgetsFlow | internal/infrastructure/ws/ws.go:82-89 | the run in which a subscribed flow is forgotten that way |
| Adapter.FailureStrandsJoiners | internal/infrastructure/ws/ws.go:78-89 | after a failing first subscribe the key stays stored if and only if another flow joined meanwhile, and those flows keep it |
| Adapter.JoinerIsStranded | internal/infrastructure/ws/ws.go:78-89 | the run in which one does |
| SubscribeManager.Manager.FilterGainers | internal/bots/penny_jumper/application/subscribe_manager.go:141-160 | exactly the qualifying gainers, in order |
| SubscribeManager.FilterDecidesEach | internal/bots/penny_jumper/application/subscribe_manager.go:146-158 | gainer by gainer: kept unless blacklisted, under the minimum volume, over the greatest price, or without a price where one is set |
| SubscribeManager.LimitCuts | internal/bots/penny_jumper/application/subscribe_manager.go:116-120 | the first topGainerLimit of them, if that is positive |
| SubscribeManager.Manager.UpdateUniverseForExchange | internal/bots/penny_jumper/application/subscribe_manager.go:162-188 | the universe becomes the qualified set; the two lists are duplicate-free, disjoint and the exact differences |
| SubscribeManager.Manager.RefreshClient | internal/bots/penny_jumper/application/subscribe_manager.go:103-130 | one client's refresh, universe and adapter; a failed fetch changes nothing |
| SubscribeManager.Manager.ShutDownClient | internal/bots/penny_jumper/application/subscribe_manager.go:251-272 | every symbol of the universe is unsubscribed once and the universe forgotten |
| SubscribeManager.SubscribePairsForClient | internal/bots/penny_jumper/application/subscribe_manager.go:190-214 | depth, and trades where supported, of each symbol in turn, failures ignored |
| SubscribeManager.UnsubscribePairsForClient | internal/bots/penny_jumper/application/subscribe_manager.go:216-244 | the mirror image |
| SubscribeManager.NewSymbolsLists | internal/bots/penny_jumper/application/subscribe_manager.go:172-177 | the add list names each new symbol once, even when the fetch repeats it |
| Holdings.SubscribePairsIff | internal/bots/penny_jumper/application/subscribe_manager.go:190-214 | subscribing a list adds exactly the keys of the feeds that are granted, and changes no other flow |
| Holdings.UnsubscribePairsIff | internal/bots/penny_jumper/application/subscribe_manager.go:216-244 | unsubscribing a list removes exactly the keys of its feeds |
| UniverseRuns.HoldingsStayWithinUniverse | internal/bots/penny_jumper/application/subscribe_manager.go:96-273 | over every interleaving of refresh steps, shutdown steps and other flows' calls, whatever fails: the bot holds only keys of its universe, of symbols yet to be removed, and of symbols subscribed too late |
| UniverseRuns.HoldingsAreExact | internal/bots/penny_jumper/application/subscribe_manager.go:96-273 | for plain symbols it holds exactly those, less the feeds it was refused |
| UniverseRuns.HoldingsAreTheUniverseIff | internal/bots/penny_jumper/application/subscribe_manager.go:96-273 | between refreshes it holds exactly its universe's keys if and only if none was refused and every late symbol was |
| UniverseRuns.HoldingsAreTheUniverse | internal/bots/penny_jumper/application/subscribe_manager.go:96-273 | so it does over every run in which nothing is refused and no shutdown overtakes a refresh |
| RefreshRuns.RefreshIsARun | internal/bots/penny_jumper/application/subscribe_manager.go:122-125 | an uninterrupted refresh is a run and ends as RefreshClient says |
| RefreshRuns.ShutDownIsARun | internal/bots/penny_jumper/application/subscribe_manager.go:247-273 | a shutdown is a run from any point of a refresh, in any order |
| RefreshRuns.ShutDownReleasesEverything | internal/bots/penny_jumper/application/subscribe_manager.go:247-273 | after a shutdown between refreshes the bot holds nothing |
| RefreshRuns.InterruptedIsARun | internal/bots/penny_jumper/application/subscribe_manager.go:122-125 | so is a refresh with a shutdown between its universe update and its subscribes; the universe ends empty |
| RefreshRuns.ShutDownDuringRefreshLeaks | internal/bots/penny_jumper/application/subscribe_manager.go:122-125 | after it a key is held if and only if it belongs to a new symbol's granted feed; all of them when every subscribe succeeds, those another flow holds when every one fails |
| RefreshRuns.FailedFeedIsUnheldIff | internal/bots/penny_jumper/application/subscribe_manager.go:190-214 | after a refresh a new symbol's key is not held if and only if its feed failed and no other flow held it |
| RefreshRuns.FailedSymbolIsNotRetried | internal/bots/penny_jumper/application/subscribe_manager.go:172-177 | over every run that keeps the symbol it stays unheld and in the universe |
| RefreshRuns.FailedSymbolRun | internal/bots/penny_jumper/application/subscribe_manager.go:96-130 | the run from the start that gets there |
| Wall.Wall.ApplyEvent | internal/bots/penny_jumper/domain/wall.go:66-106 | the wall after an event, field by field |
| Wall.ProjectWallFromEvents | internal/bots/penny_jumper/domain/wall.go:109-118 | nil exactly for an empty stream, else the fold of its events |
| Wall.ReplayShowsLatest | internal/bots/penny_jumper/domain/wall.go:66-118 | field by field, replay shows what the latest event that carries the field says |
| Wall.ReplayShowsStatus | internal/bots/penny_jumper/domain/wall.go:70-105 | and the status of the latest event that sets one |
| Wall.ReplayShowsNothingElse | internal/bots/penny_jumper/domain/wall.go:66-118 | not matured or ended without such an event, and never a price, symbol or side |
| Wall.ReconcileWallData | internal/bots/penny_jumper/domain/wall.go:132-171 | total drop is the sum of negative deltas and splits into absorbed and pulled, absorbed at most the traded volume, pulled only beyond it |
| Wall.EmitTracks | internal/bots/penny_jumper/domain/wall.go:66-118 | each event the detector emits keeps replay, grammar and booked volume in step with the live wall |
| Wall.TerminalCompletes | internal/bots/penny_jumper/domain/wall.go:95-104 | a terminal event books the rest of the volume out and ends the stream |
| Wall.CompletedDropsEverything | internal/bots/penny_jumper/domain/wall.go:145-152 | the total drop of a completed stream is the initial volume plus everything added |
| Wall.ReplayKeepsPulledVolume | internal/bots/penny_jumper/domain/wall.go:95-104 | after the terminal event the replayed volume is what the deltas leave if and only if the wall was consumed or empty |
| WallDetector.DepthStore.GetTradedVolume | internal/bots/penny_jumper/infrastructure/store/depth_store.go:345-369 | the volume traded at a price by one taker side, or by either when none is given |
| WallDetector.EitherTaker | internal/bots/penny_jumper/infrastructure/store/depth_store.go:345-369 | with none given it is the sum of both sides' |
| WallDetector.DepthStore.SaveActiveWall | internal/bots/penny_jumper/infrastructure/store/depth_store.go:96-98 | one wall per symbol and side |
| WallDetector.DepthStore.AppendWallEvent | internal/bots/penny_jumper/infrastructure/store/depth_store.go:196-212 | appends to the stream of the id, and drops events without an id |
| WallDetector.Detector.FindLevelByPrice | internal/bots/penny_jumper/application/wall_detector.go:124-170 | the first of the top 20 levels within half a tick decides, qualifying or not |
| WallDetector.Detector.FindBestCandidate | internal/bots/penny_jumper/application/wall_detector.go:172-219 | the first qualifying level of greatest positive notional among the top 20 |
| WallDetector.Detector.EmitWallEvent | internal/bots/penny_jumper/application/wall_detector.go:558-598 | next sequence number, appended event, saved wall |
| WallDetector.Detector.CheckMaturity | internal/bots/penny_jumper/application/wall_detector.go:457-463 | matures once, at the minimum lifespan |
| WallDetector.Detector.CheckApproach | internal/bots/penny_jumper/application/wall_detector.go:465-472 | announces the crossing of the distance threshold |
| WallDetector.Detector.CheckVolumeChange | internal/bots/penny_jumper/application/wall_detector.go:485-506 | a drop is absorbed when trades were seen, else resized; a rise is resized |
| WallDetector.Detector.CheckWeakened | internal/bots/penny_jumper/application/wall_detector.go:508-521 | weakens once, below the threshold share of the initial volume |
| WallDetector.Detector.HandleExistingCandidate | internal/bots/penny_jumper/application/wall_detector.go:431-483 | snapshot first, then maturity, approach, volume, weakening, in that order |
| WallDetector.Detector.HandleFreshCandidate | internal/bots/penny_jumper/application/wall_detector.go:523-532 | a new wall is born with sequence number 1 |
| WallDetector.Detector.HandleDisappearedWall | internal/bots/penny_jumper/application/wall_detector.go:534-556 | consumed when as much was traded as stood there, else disappeared; no longer active |
| WallDetector.Detector.ScanSide | internal/bots/penny_jumper/application/wall_detector.go:91-122 | follow the tracked wall at the level that decides, or finalize it and start afresh from the best level; the result is the wall now stored |
| WallDetector.Detector.ProcessOrderBook | internal/bots/penny_jumper/application/wall_detector.go:50-89 | which books are looked at, what each side's scan saw of its levels, and exactly which walls are returned; the ask side not for spot |
| WallDetector.ScannedSlots | internal/bots/penny_jumper/application/wall_detector.go:91-122 | a scan touches its own symbol and side only, and leaves a wall there exactly when it detects one |
| WallRuns.ReplayAgreesWithLiveWall | internal/bots/penny_jumper/application/wall_detector.go:431-598 | after every book of every run the replay of an active wall's stream gives its id, sequence, volume, initial volume, status, maturity and first-detected time |
| WallRuns.VolumeIsConserved | internal/bots/penny_jumper/application/wall_detector.go:440-556 | initial volume plus all deltas is the live volume, and zero once the stream has ended |
| WallRuns.StreamsFollowTheGrammar | internal/bots/penny_jumper/application/wall_detector.go:91-122 | numbers 1..n, born first and only first, matured and weakened at most once, terminal at most once and last |
| WallRuns.ExistingKeepsInv | internal/bots/penny_jumper/application/wall_detector.go:431-483 | following a wall keeps stream, store and the other walls consistent |
| WallRuns.DisappearanceKeepsInv | internal/bots/penny_jumper/application/wall_detector.go:534-556 | finalizing one completes its stream with the right status |
| WallRuns.BirthIsWellFormedIffFresh | internal/bots/penny_jumper/application/wall_detector.go:196-214 | a birth keeps its stream in the grammar if and only if the id had no stream |
| WallRuns.BothSidesShareAnId | internal/infrastructure/exchange/order_id.go:19-33 | walls of both sides born from one book share one id and one ill-formed stream |
| WallRuns.ReplayLagsInsideAStep | internal/bots/penny_jumper/application/wall_detector.go:453-475 | at a maturing event the replay still has the volume of the last book |
| WallEvents.ExistingIsExactly | internal/bots/penny_jumper/application/wall_detector.go:431-521 | exactly which events a book appends for a wall it finds, with all they say, and the wall it stores: absorbed iff volume fell and was traded, resized iff it changed otherwise, maturing, approach and weakening iff their thresholds, written out, are crossed |
| WallEvents.FollowedWallAnnounces | internal/bots/penny_jumper/application/wall_detector.go:91-122 | so after every run |
| WallEvents.DeltasFitKinds | internal/bots/penny_jumper/application/wall_detector.go:431-556 | in every stream of every run each event's change of volume fits its kind |
| WallEvents.DisappearanceIsExactly | internal/bots/penny_jumper/application/wall_detector.go:534-556 | the terminal event and what remains stored |
| WallEvents.BirthIsExactly | internal/bots/penny_jumper/application/wall_detector.go:194-214 | the wall stored and the event appended when a level is taken up |
| WallEvents.AcceptableIff | internal/bots/penny_jumper/application/wall_detector.go:55-69 | positive, not crossed, and a spread within the limit in percent of the bid |
| WallEvents.SearchReach | internal/bots/penny_jumper/application/wall_detector.go:137-141 | twenty levels, half a tick either way |
| DecMath.SnapFloorIsGreatest | pkg/decmath/decmath.go:91-103 | the greatest multiple of the tick at most the price |
| DecMath.SnapCeilIsLeast | pkg/decmath/decmath.go:105-117 | the least multiple of the tick at least the price |
| DecMath.RoundIsNearest | pkg/decmath/decmath.go:53-62 | a value of that scale, at most half a unit away, and the identity on values of that scale |
| DecMath.FloorToScaleIsGreatest | pkg/decmath/decmath.go:64-74 | the greatest value of that scale at most the argument |
| DecMath.UnitIsATenth | pkg/decmath/decmath.go:64-74 | the unit of a scale: 1 for none, a tenth for each further decimal |
| TradeCalc.LongPriceWithinSlippage | pkg/tradecalc/calc.go:38-87 | with a tick the scale can express, a LONG price is the greatest tick at most the given percentage above the ask, or two ticks if that is more; and more than a tick above |
| TradeCalc.ShortPriceWithinSlippage | pkg/tradecalc/calc.go:38-87 | the mirror image below the bid, or an error exactly when nothing positive is left |
| TradeCalc.RefusedInputs | pkg/tradecalc/calc.go:39-60 | which inputs are refused with which error |
| TradeCalc.SanityCheckIsDead | pkg/tradecalc/calc.go:69-74 | with a scale unit of at most two ticks the fallback never fires |
| TradeCalc.CoarseScaleFailsLowPrices | pkg/tradecalc/calc.go:66-78 | a price that snaps to under half a unit of the scale gives an error, on or off the grid |
| TradeCalc.CoarseScaleUndercutsAsk | pkg/tradecalc/calc.go:66-78 | a LONG order below the ask |
| SanityCheck.FallbackNeverHelps | pkg/tradecalc/calc.go:69-80 | a LONG price is at least the ask, and a SHORT price not above the bid, if and only if the check does not fire: the fallback is on the wrong side whenever it is used |
| SanityCheck.LongFiresIff | pkg/tradecalc/calc.go:64-72 | some ask makes the LONG check fire if and only if some tick from the second on is rounded down by more than one tick |
| SanityCheck.LongFiresOnGridIff | pkg/tradecalc/calc.go:64-72 | some ask on the tick grid does if and only if some tick from the third on is rounded down by more than two |
| SanityCheck.ShortFiresIff | pkg/tradecalc/calc.go:64-74 | the same for SHORT with ticks rounded up by more than one |
| SanityCheck.ShortFiresOnGridIff | pkg/tradecalc/calc.go:64-74 | and on the grid by more than two |
| SanityCheck.CoarseScales | pkg/decmath/decmath.go:53-62 | no tick is rounded that far by a unit of at most two ticks; the second is by a unit over four, the third by one over six |
| TradeCalc.ExitPriceWithinATick | pkg/tradecalc/calc.go:188-198 | an exit price moves by its percentage, less than a tick towards the entry |
| TradeCalc.FlooredVolumeFits | pkg/tradecalc/calc.go:95-97 | the floored volume is the largest lot multiple whose notional fits |
| TradeCalc.WorthOfContracts | pkg/tradecalc/calc.go:118-144 | a volume is worth at most a notional if and only if the notional buys it |
| Candidates.VolumeFitsNotional | internal/bots/funding/domain/pricing.go:88-100 | a volume above the exchange minimum is worth at most its notional |
| Candidates.LeverageWithinLimits | internal/bots/funding/domain/leverage.go:26-158 | at least 1, at most the configured and the contract maximum, and at most the answer of either kind of exchange limit |
| Candidates.LeverageIsGreatest | internal/bots/funding/domain/leverage.go:26-158 | and it is the greatest leverage those limits allow |
| Candidates.TargetValueIs | internal/bots/funding/domain/leverage.go:81-95 | the value a risk limit is asked for |
| Candidates.RefPriceIs | pkg/tradecalc/calc.go:107-115 | the ask for LONG, the bid for SHORT, else the last price |
| Candidates.ScoreIs | internal/bots/funding/domain/pricing.go:132-156 | the score written out, with its default weights and cap |
| Candidates.VolumeIsLargest | internal/bots/funding/domain/pricing.go:61-74 | the largest lot multiple worth at most margin times leverage, inside the exchange's bounds |
| Tpsl.StopLossIsNeverDropped | internal/bots/funding/domain/tpsl.go:93-152 | after a successful IOC price, direction validation drops no stop loss on either side |
| Tpsl.TakeProfitNeedsMoreThanSlippage | internal/bots/funding/domain/tpsl.go:93-152 | a take profit is kept if and only if some tick lies beyond the slippage and within its distance, and dropped otherwise |
| Tpsl.BeyondSlippageIs | internal/bots/funding/domain/tpsl.go:93-152 | those ticks in terms of quotes and percentages |
| Tpsl.StopLossIsATick | internal/bots/funding/domain/tpsl.go:81-89 | the stop loss: the percentage away from the ask or bid, on the tick nearest to the entry |
| Tpsl.TakeProfitIsATick | internal/bots/funding/domain/tpsl.go:41-49 | the take profit likewise |
| Tpsl.TakeProfitPctIsClamped | internal/bots/funding/domain/tpsl.go:19-36 | the funding rate times the multiplier between its bounds, the upper one winning; static unless enabled |
| Safety.Candidate.EvaluateTradeSafety | internal/bots/funding/domain/safety.go:103-137 | budget, minimum volume, expected profit |
| Safety.Candidate.EvaluateSafety | internal/bots/funding/domain/safety.go:33-66 | turnover limit, liquidity-safe notional, then the trade checks |
| Safety.Candidate.ApplySafetySizing | internal/bots/funding/domain/safety.go:69-101 | the resized candidate and its outcome |
| Safety.PassingIsWithinEveryLimit | internal/bots/funding/domain/safety.go:69-120 | passing means at most the liquidity-safe notional, at most 1.01 times the budget, at least the minimum volume |
| Safety.PassesIff | internal/bots/funding/domain/safety.go:33-137 | exactly when a candidate passes, and then its volume, notional, slippage and expected profit |
| Safety.SafeNotionalIs | internal/bots/funding/domain/safety.go:51-55 | the given share of an average minute's turnover |
| Safety.SizingKeepsBudget | internal/bots/funding/domain/safety.go:69-101 | sizing changes nothing but volume and a missing turnover |
| Safety.SizedDownVolumeIsLargest | internal/bots/funding/domain/safety.go:82-84 | a sized-down volume inside the exchange's bounds is the largest lot multiple that fits |
| Allocator.AllocateMargins | internal/bots/funding/domain/allocator.go:39-101 | sort, allocate in turn, keep the tradeable |
| Allocator.AllocateSingleCandidateMargin | internal/bots/funding/domain/allocator.go:103-152 | one candidate's margin, leverage and volume |
| Allocator.SortIsStable | internal/bots/funding/domain/allocator.go:57-64 | ordered by score then rate, a permutation, and ties keep their order |
| Allocator.FundedWithinLimits | internal/bots/funding/domain/allocator.go:112-151 | margin within remainder and cap, margin times leverage within the impact cap, leverage within its limits, only these fields change; negative exactly for a negative leverage |
| Allocator.FundedIsLargest | internal/bots/funding/domain/allocator.go:112-149 | with its final leverage a candidate's position is its whole margin limit, or exactly the impact cap if that is less |
| Allocator.BetterIs | internal/bots/funding/domain/allocator.go:57-64 | the order written out: rate and turnover scores, ties by rate |
| Allocator.MarginIsConserved | internal/bots/funding/domain/allocator.go:65-86 | every input: margins plus remainder are the pool, each candidate within its limits |
| Allocator.RemainderStaysInPool | internal/bots/funding/domain/allocator.go:67-86 | the remainder is never negative, and within the pool when no leverage is negative |
| Allocator.MarginIsHandedBackIff | internal/bots/funding/domain/allocator.go:131-151 | a margin is negative if and only if its leverage is and the pool is not empty on its turn |
| Allocator.AllocationIsSound | internal/bots/funding/domain/allocator.go:39-101 | the result is the score-ordered subsequence of exactly the candidates with a volume and a margin, each within its limits, using at most the pool |
| Allocator.ScannedAllocationIsSound | internal/bots/funding/application/scanner.go:675-691 | so it is for the candidates the scanner hands over, whose leverage it determined first, whatever was configured |
| Allocator.KeptNotionalWithinImpactCap | internal/bots/funding/domain/allocator.go:120-149 | a kept position above the exchange minimum is worth at most margin times leverage, hence the impact cap |
| Allocator.NegativeLeverageOverdrawsPool | internal/bots/funding/domain/allocator.go:131-151 | what that rules out: after sorting, the candidate behind one of negative leverage gets more than the pool |
| FrontRun.NeverCrossesTheSpread | internal/bots/penny_jumper/application/runner.go:426-449 | the target keeps the wall behind it and stays inside the spread, on or off the tick grid |
| FrontRun.StrictlyInFrontUnlessSpreadIsOneTick | internal/bots/penny_jumper/application/runner.go:426-449 | on the grid it is one tick in front of the wall, except exactly when the wall is best and the spread one tick |
| FrontRun.DefaultTick | internal/bots/penny_jumper/application/runner.go:430-432 | a hundredth without a tick size |
| TimeSync.TimeSync.SyncOnce | internal/infrastructure/timesync/sync.go:77-110 | first sample raw, later ones smoothed; a failed query only clears the health flag |
| TimeSync.TimeSync.UpdateHTTPSamples | internal/infrastructure/timesync/sync.go:125-160 | appends the sample, drops the stale prefix, and stores minimum and median of the rest |
| TimeSync.FirstFresh | internal/infrastructure/timesync/sync.go:129-135 | the first sample not before the cutoff |
| TimeSync.RollingMin | internal/infrastructure/timesync/sync.go:138-143 | the least round trip by the source's loop |
| TimeSync.RollingMedian | internal/infrastructure/timesync/sync.go:146-159 | however the round trips are sorted, the middle of them, or the truncated mean of the two middles |
| TimeSync.SmoothingContracts | internal/infrastructure/timesync/sync.go:96-102 | between old offset and sample, gap shrunk by 7/10 up to truncation, strictly beyond 3 ms |
| TimeSync.SmoothingStallsIff | internal/infrastructure/timesync/sync.go:96-102 | no progress if and only if at the sample or up to 3 ms short of it on the side of zero |
| TimeSync.GapShrinksGeometrically | internal/infrastructure/timesync/sync.go:96-102 | k equal samples shrink the gap above 3 ms by (7/10)^k |
| TimeSync.SettlesWithinThree | internal/infrastructure/timesync/sync.go:96-102 | equal samples bring the offset within 3 ms for every sign, and it stays |
| TimeSync.SettlesExactly | internal/infrastructure/timesync/sync.go:96-102 | exactly on a sample approached toward zero, exactly 3 ms short of one approached away from it |
| TimeSync.OffsetErrorIsBounded | internal/infrastructure/timesync/sync.go:78-102 | a steady skew and round trips of at most R: over every run the offset is off by less than R/2 plus a millisecond |
| TimeSync.WindowIsExact | internal/infrastructure/timesync/sync.go:125-160 | over every run with a clock that does not go back: the window is the whole history not older than 60 s, with its exact minimum and the median of any sorting of it |
| TimeSync.MedianIsBetween | internal/infrastructure/timesync/sync.go:150-159 | the median lies between minimum and maximum |
| TimeSync.HealthyIff | internal/infrastructure/timesync/sync.go:77-105 | healthy exactly when the last round was answered in less than 100 ms |
| TimeSync.MinimumFallbackIsDead | internal/infrastructure/timesync/sync.go:268-281 | over every run the reported latency is the median, or the last round trip when the median is not positive; the fallback to the minimum never decides |
| Klines.KlineBuffer.Add | internal/infrastructure/store/klines.go:24-47 | replace, ignore, or append and drop the oldest beyond the capacity |
| Klines.KlineStore.InitKlines | internal/infrastructure/store/kline_store.go:27-39 | a new buffer fed in order; other symbols untouched |
| Klines.KlineStore.AddKline | internal/infrastructure/store/kline_store.go:42-53 | adds to the symbol's buffer, made with capacity 50 if missing; other symbols untouched |
| Klines.KlineStore.GetKlines | internal/infrastructure/store/kline_store.go:56-68 | the symbol's klines, none for an unknown symbol |
| Klines.BufferIsTailOfLog | internal/infrastructure/store/klines.go:24-47 | for any capacity and any input the buffer is the tail of the unbounded log |
| Klines.LogHoldsSurvivors | internal/infrastructure/store/klines.go:29-41 | the log is, in strict time order, the klines that were newest when given and were not replaced |
| Klines.StoreRefinesLog | internal/infrastructure/store/kline_store.go:27-53 | over every run of InitKlines and AddKline each symbol shows the newest survivors of what it was given since its last InitKlines, at most its capacity |

## Left out

- IEEE-754 rounding, the finite precision of decimal division, and 64-bit wrap-around: all arithmetic is exact.
- Sockets, HTTP, JSON, signing, the event bus, logging, metrics, cache expiry (TTL of walls, streams and trades) and timers; their outcomes are steps or parameters.
- Live order-book synchronization, the reversion strategy, wall judges, opportunity filters, configuration merging and formatting: they would add easy members.
- Subscribe and unsubscribe messages are opaque: the server of a connection is the set of topics it was asked for.
- Pool.Close, which closes every client, is not among the steps of PoolRuns.
- PoolRuns.NoSubscriptionIsLost: calls on one topic do not overlap; OverlapDoubleDecrements shows what happens when they do, and RollbackBalancesIff when. A failing write breaks the connection until the read loop drops it.
- The private client, message handlers, heartbeat and round-trip estimate of the WebSocket client.
- Client.NoWaiterSurvivesAbort: request ids are unique over the run; without that CancelRemovesForeignEntry says when a call loses its entry. The dispatcher's own safety needs no such assumption.
- UniverseRuns.HoldingsAreExact: symbols are not empty and, where trades are subscribed, none has the form of another's trade key; with such a symbol one unsubscribe could release the other's feed. HoldingsStayWithinUniverse needs no such assumption.
- UniverseRuns.HoldingsStayWithinUniverse: each pair of depth and trade calls on one symbol is one step, and refreshes of one client do not overlap each other (one job runs them).
- SubscribeManager.Manager.RefreshClient: one client, uninterrupted; RefreshRuns interrupts it. The calls to the order-book synchronizer and the 24h volume cache are not modelled; the deletion of active walls is the Forget step of WallRuns.
- WallDetector.Detector.FindLevelByPrice: what evalLevel measures of a level (distance, ratios, imbalance) is an input, and so is its verdict.
- WallRuns.ReplayAgreesWithLiveWall: each birth gets an id no stream has; BirthIsWellFormedIffFresh says this is exactly what is needed, BothSidesShareAnId that it can fail. The text of an id is a function of symbol and second.
- WallRuns.StreamsFollowTheGrammar: price, symbol and side are in no event the replay reads, so it cannot restore them.
- Wall.ReconcileWallData: the final volume it reports is that of the last event, which for a terminal event is the volume before it went.
- Allocator.AllocateSingleCandidateMargin: the candidate is a value that is returned, not a pointer written through.
- Allocator.AllocationIsSound: no leverage is negative; ScannedAllocationIsSound shows that the scanner sees to it.
- `FindWallPrice` and the dynamic wall scan of the funding bot: not used by the take-profit and stop-loss calculation.
- TimeSync.OffsetErrorIsBounded: the skew is constant; drift of the two clocks is not modelled.
- A negative kline capacity panics in the source; capacities here are not negative.
