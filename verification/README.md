# Verified model of market_connector

A Dafny model of the parts of market_connector in which correctness depends on state that several
callers share: the Interactive Brokers transport with its market-data lines, PnL feeds, executions,
depth books, linked orders and reconnects; the contract cache and the error router beside it; Kraken's
order accounting; and the string formats of the symbol mappers, the WebSocket routing table, synthetic
trade ids and the compatibility matrix.

asyncio runs one coroutine at a time, so the code between two awaits is one atomic step. Each stateful
component is modelled twice: as a state machine over values, whose steps are those stretches and whose
environment (answers of an exchange, raising calls, time, fills) is free, and as a class whose methods
do the same work in place. The run theorems are about the state machine; every method is proved equal
to its step. Object identity tests such as `streams.get(key) is stream` are kept: stream objects have
numbers in the ledger, feeds and futures stand for themselves.

| file | contents |
|---|---|
| Prelude.dfy | options, results and facts on sequences, sets and maps |
| StreamLedger.dfy | the shared-stream allocator as transitions over values |
| StreamSafety.dfy | its invariants and what holds over every run |
| StreamTransport.dfy | the allocator on mutable streams, handles and dicts, each stretch equal to its transition |
| StreamEffects.dfy | what every step of a run changes, field by field |
| StreamCallbacks.dfy | error callbacks that subscribe again in the middle of a failure |
| StreamEntryPoints.dfy | every entry point on the objects is a step of the ledger, also with such callbacks |
| PnlFeeds.dfy | reference-counted PnL requests |
| FillDedup.dfy | execution de-duplication with bounded memory |
| DepthBook.dfy | the own depth book |
| LinkedOrders.dfy | rollback of bracket and OCA legs |
| Reconnect.dfy | connect, backoff, the reconnect supervisor and the event handlers |
| ContractResolver.dfy | the contract cache and its double-checked lock |
| ErrorRouter.dfy | routing of IB error codes to waiting futures |
| KrakenOrders.dfy | open-order counts and age-based charges |
| SymbolMapper.dfy | pair conversions and their round trips |
| WsRouting.dfy | the routing table as a refinement of a dict |
| TradeIds.dfy | synthetic trade ids |
| CompatMatrix.dfy | the Markdown matrix |

`dafny verify dfyconfig.toml` checks everything.

## What does not hold of the code

Where a promise fails, the model keeps the code as it is and states when it does hold.

- Cancelling a batch on Kraken lowers the local count once for each order listed, whatever number the
  reply says was cancelled; an order listed twice, one no longer counted or one of another pair can make
  the count too low (`CancelKeepsBoundExactly`, `CancellingTwiceLosesTheBound`).
- invalidate(ref) drops the conId even if another cached entry has it (`InvalidateCompleteExactly`,
  `SharedIdIsForgotten`), and does nothing for a reference that another entry serves through the conId
  index (`InvalidateForgetsExactly`, `IndexServedIsKept`). A request at IB when ref, or everything, is
  invalidated still fills the cache, and the next resolve may be given its answer (`AsksAgainExactly`,
  `LateAnswerServesExactly`, `OldAnswerIsServed`).
- Depth books are handed out by contract equality, trades by stream key, so a sharer of a depth stream
  may receive nothing (`DepthReachesAllExactly`, `DepthMissesUnequalSharer`).
- connect() during disconnect() can leave two reconnect supervisors (`SecondSupervisorExactly`,
  `ConnectDuringDisconnectStartsASecond`).
- connect() promises that a failed initial attempt starts no supervisor; with overlapping calls the first
  to end lowers the flag for all (`DroppedStartsExactly`, `OverlapStartsASupervisor`).
- A PnL key whose cancel raised with the request still live is requested a second time when it is opened
  again (`RequestsTwiceExactly`, `FailedCancelIsRequestedTwice`).
- Amending an order under another pair charges that pair, while Kraken counts the order's own
  (`ChargedEnoughExactly`, `WrongPairIsUndercharged`).
- Kraken's mapper does not bring BTC-quoted pairs back (`KrakenRoundTripsExactly`).
- A fill re-sent after 10000 other bases is published again, as a new fill (`ResendDroppedExactly`,
  `ForgottenFillIsPublishedAgain`), and a fee after 10000 other fees (`FeeRepeatsExactly`,
  `ForgottenFeeIsPublishedAgain`).
- The docstring of _exec_suffix promises -1 for an id without a dot segment; the code parses the whole id
  then (`DotlessSuffixExactly`, `DotlessIdWithSuffix`).
- Two waits under one order id displace each other (`WaiterLostExactly`); slots with a colon in the
  channel or the pair * can share a key (`RoutesAsDictExactly`, `SharedKeyReachesBoth`); a late tick
  repeats an id (`SameIdExactly`, `LateTickRepeatsAnId`); a matrix without its two header lines gets the
  same row again (`LinesIdempotentExactly`).

## What the theorems assume

- Streams: reqIds are natural numbers, and one that IB hands out is not one still routed
  (`RoutesExactIffFresh` and `MovedRoutesExactIffFresh` show that this is needed); resubscribing without
  cancelling happens only when IB has lost every stream. An error callback may subscribe again (`CallbacksAreLater`); it does not
  close other handles, start snapshots or disconnect while the failure is being delivered.
- Kraken: no orders are open at the start, calls do not overlap, replies arrive, the account is used by
  this process only, and the pair of an order in OpenOrders is spelled as it was when the order was
  placed. A cancellation names orders of this client that are still counted when it is called, each
  once and on its own pair; orders open at the call are such (`OpenAtTheCallIsEnough`), and what fills
  before Kraken acts is free. For the charges, an amendment names the pair its order is open on, which
  `ChargedEnoughExactly` shows to be needed; Kraken refuses an edit under another pair. Kraken restarts
  an order's age when it amends it, as its documentation says.
- PnL feeds: a request is re-sent without cancelling only when the connection, and so the old one, is gone.
- Error router and contract cache: listeners do not raise. `ConcurrentResolvesShareOneFetch` is about runs
  without invalidation.
- Event bus: publishing calls each live subscription of the key once, in subscription order.

## Model

| member | source | states |
|---|---|---|
| StreamSafety.EveryRunKeepsLinesAndRefs | market_connector/exchanges/interactive_brokers/transport.py:1833-2114 | In every state reachable by any mix of subscribes, closes, snapshots, timer expiries, IB errors, resubscribes and disconnects, whatever IB answers and whichever calls raise: the line count is the number of registered streams and within the cap; each object's refs are its open handles plus its running snapshots; a registered trades stream is in use; a registered depth stream is in use or on its timer, never both; only registered streams have timers; and an object that is gone was cancelled at IB exactly once |
| StreamSafety.EveryRunKeepsRoutes | market_connector/exchanges/interactive_brokers/transport.py:1862-1882 | In every reachable state the two reqId maps hold exactly the current reqIds of the registered streams, persistent and trades apart, and share no id |
| StreamSafety.EveryRunMatchesIb | market_connector/exchanges/interactive_brokers/transport.py:1884-1895 | In every reachable state IB streams no slot that the transport gave up, except through teardown cancels that raised; without any raising call, IB streams exactly the registered slots |
| StreamSafety.EveryRunIsSound | market_connector/exchanges/interactive_brokers/transport.py:1741-2242 | Every state of every run satisfies every invariant, and no step changes the cap |
| StreamSafety.EveryEventExtendsTheRun | market_connector/exchanges/interactive_brokers/transport.py:1741-2242 | No run gets stuck: whatever event can happen in its last state carries it on |
| StreamSafety.NothingInUseHoldsNoLine | market_connector/exchanges/interactive_brokers/transport.py:1850-1854 | No leak: once all handles are closed, no snapshot runs and no timer is armed, only L1 streams hold lines |
| StreamSafety.StaleCloseIsHarmless | market_connector/exchanges/interactive_brokers/transport.py:1807-1815 | Closing a handle whose stream was dropped changes that handle and that dead object only, whatever was opened for the same contract since |
| StreamSafety.StaleSnapshotIsHarmless | market_connector/exchanges/interactive_brokers/transport.py:2229-2242 | The same for a depth snapshot whose stream was dropped while it waited |
| StreamSafety.DroppedStaysDropped | market_connector/exchanges/interactive_brokers/transport.py:1994-2010 | Along any run, an object once dropped is never registered again and its cancel count stays one; a closed handle never changes again |
| StreamSafety.FailingCodeFailsExactlyItsSubscribers | market_connector/exchanges/interactive_brokers/transport.py:2012-2074 | Error 101 or a hard permission code on a routed reqId removes exactly that stream, one line and that reqId, closes each of its open subscribers with that code and calls its error callback once, and changes no other stream or handle |
| StreamSafety.ErrorActsExactly | market_connector/exchanges/interactive_brokers/transport.py:2056-2074 | In every reachable state an error changes something if and only if its reqId is the current one of a registered stream and its code fails that stream, or is a soft permission code on a persistent stream not yet warned with it; in particular negative reqIds never do |
| StreamSafety.UnroutedErrorIsIgnored | market_connector/exchanges/interactive_brokers/transport.py:2056-2066 | In every reachable state an error on a reqId that is negative, or that no registered stream runs on now, outdated ids included, changes nothing |
| StreamSafety.RefusedExactlyWhenFull | market_connector/exchanges/interactive_brokers/transport.py:682-689 | A subscribe, snapshot or L1 read is refused for lack of lines exactly when it needs a new stream and every line is held; a refusal or a raising request changes nothing; otherwise at most one stream object and one IB request come into being |
| StreamSafety.RoutesExactIffFresh | market_connector/exchanges/interactive_brokers/transport.py:1862-1873 | The reqId maps stay exact after a first request if and only if the reqId IB gave is not one still routed |
| StreamSafety.MovedRoutesExactIffFresh | market_connector/exchanges/interactive_brokers/transport.py:1897-1946 | When a stream is moved to a new request the maps stay exact if and only if no request is made or its reqId is not one still routed once the old one is withdrawn |
| StreamSafety.ReleaseAllEmpties | market_connector/exchanges/interactive_brokers/transport.py:1984-1992 | Disconnect leaves no registered stream, no line, no reqId and no timer, and has cancelled every object that ever lived exactly once |
| StreamSafety.ResubscribeAllKeeps | market_connector/exchanges/interactive_brokers/transport.py:1907-1923 | Moving every stream to a new request keeps all invariants, the registration, the lines and the users, even when some of the calls raise |
| StreamSafety.TradesReachEverySharer | market_connector/exchanges/interactive_brokers/transport.py:1856-1860 | In every reachable state each open subscriber of a trades stream receives its ticks |
| StreamSafety.DepthReachesAllExactly | market_connector/exchanges/interactive_brokers/transport.py:2116-2126 | In every reachable state the book of a depth stream reaches all its open subscribers if and only if they all gave a contract equal to the opener's; so always when the opener's contract has no IB id |
| StreamSafety.DepthMissesUnequalSharer | market_connector/exchanges/interactive_brokers/transport.py:2123-2126 | A run at whose end two unequal contracts share one depth stream by id and the second open subscriber receives no book |
| StreamSafety.FindKeeps | market_connector/exchanges/interactive_brokers/transport.py:2076-2094 | Finding or opening a stream keeps the invariants whatever IB answers |
| StreamSafety.JoinKeeps | market_connector/exchanges/interactive_brokers/transport.py:1795-1831 | Adding a subscriber, which also disarms the idle timer, keeps the invariants |
| StreamSafety.CloseKeeps | market_connector/exchanges/interactive_brokers/transport.py:1807-1817 | Closing a handle, with or without a running loop, keeps the invariants |
| StreamSafety.ReleaseKeeps | market_connector/exchanges/interactive_brokers/transport.py:2096-2109 | Releasing one user keeps the invariants: the last one arms the timer or drops the stream |
| StreamSafety.DropKeeps | market_connector/exchanges/interactive_brokers/transport.py:1994-2010 | Dropping a stream keeps the invariants |
| StreamSafety.IdleExpiredKeeps | market_connector/exchanges/interactive_brokers/transport.py:2111-2114 | The idle timer keeps the invariants |
| StreamSafety.SnapshotEndKeeps | market_connector/exchanges/interactive_brokers/transport.py:2161-2183 | The end of a depth snapshot, by data or by time-out with its soft-permission release, keeps the invariants |
| StreamSafety.TimedOutKeeps | market_connector/exchanges/interactive_brokers/transport.py:2165-2171 | The time-out of an L1 read keeps the invariants |
| StreamSafety.StreamErrorKeeps | market_connector/exchanges/interactive_brokers/transport.py:2056-2074 | Any error code on any reqId keeps the invariants |
| StreamSafety.FailIsFailed | market_connector/exchanges/interactive_brokers/transport.py:2031-2035 | The chain of closes that failing a stream sets off, one subscriber after the other, has the effect of telling each subscriber once |
| StreamSafety.StepKeeps | market_connector/exchanges/interactive_brokers/transport.py:1741-2242 | Every step that can happen keeps all invariants |
| StreamEffects.EveryStepFollowsTheTable | market_connector/exchanges/interactive_brokers/transport.py:1741-2242 | Every step of every run changes exactly what one table says: which registered streams end and which one is new, the request, the warning and the subscribers of each stream, what every handle shows, the snapshots in flight, and how often IB streams each slot and misses a cancel |
| StreamEffects.EndsExactly | market_connector/exchanges/interactive_brokers/transport.py:1994-2114 | In every run a registered stream goes with a step if and only if the last user leaves a trades stream, or a depth stream without a loop, a deadline finds a soft warning and no other user, the idle timer fires, a fatal code comes on its reqId, or the transport disconnects; what is gone stays gone |
| StreamEffects.TimeOutActsExactly | market_connector/exchanges/interactive_brokers/transport.py:2165-2174 | In every run the deadline of an L1 read changes something if and only if its stream is registered and carries a soft warning; then exactly its slot, one line, its reqId and its timer go, it is cancelled once, and no handle and no other stream changes |
| StreamEffects.TimeOutActs | market_connector/exchanges/interactive_brokers/transport.py:2165-2171 | The same of any deadline, a depth snapshot's included, with at most one user as the third condition |
| StreamEffects.UnwarnedTimeOutKeeps | market_connector/exchanges/interactive_brokers/transport.py:2165-2183 | In every run a depth snapshot that times out under a loop without a warning, or while others use the stream, leaves the stream registered, on its line, its reqId and its request at IB |
| StreamEffects.LastUserLeavesDepth | market_connector/exchanges/interactive_brokers/transport.py:2096-2109 | In every run, when the last handle or snapshot of a registered depth stream goes: without a loop the stream is dropped; with one it stays registered, on its line, its reqId and its request, with the timer armed, unless it was a snapshot timing out under a soft warning |
| StreamEffects.StaysUntilEnded | market_connector/exchanges/interactive_brokers/transport.py:2076-2114 | Until an event ends it a registered stream stays the same registered object |
| StreamEffects.SubscriberJoinsRegistered | market_connector/exchanges/interactive_brokers/transport.py:1795-1831 | In every run a subscriber who comes while a stream is registered under its key, idle or not, joins that object: nothing is sent to IB, no line is taken, the timer is off, and the new handle carries its own contract and error callback |
| StreamEffects.KeysAgreeExactly | market_connector/exchanges/interactive_brokers/transport.py:84-87 | Two contracts share a stream if and only if they have one IB id, or neither has one and they are equal |
| StreamCallbacks.CallbacksAreLater | market_connector/exchanges/interactive_brokers/transport.py:2012-2074 | An error whose on_error callbacks subscribe whatever they like, in the middle of the loop that tells the subscribers, leaves the transport as if all subscribers had been told first and the subscriptions made afterwards, in order |
| StreamCallbacks.CallbacksStayInARun | market_connector/exchanges/interactive_brokers/transport.py:1819-1828 | So from the last state of any run such an error leads to the last state of a longer run, and every theorem about runs holds of it |
| StreamCallbacks.CallbacksCommute | market_connector/exchanges/interactive_brokers/transport.py:2031-2035 | The loop with subscribing callbacks equals the loop without them followed by their subscriptions |
| StreamCallbacks.SubscribeCommutes | market_connector/exchanges/interactive_brokers/transport.py:1819-1828 | Telling a subscriber of a dropped stream and subscribing commute, whether the subscription is refused, raises, shares a stream or opens one |
| StreamEntryPoints.Dispatch | market_connector/exchanges/interactive_brokers/transport.py:1741-2242 | Each entry point, run on the mutable objects, makes exactly the corresponding step of the transition system, so every run property above holds of the objects, from a newly constructed transport on |
| StreamEntryPoints.TellWithCallbacks | market_connector/exchanges/interactive_brokers/transport.py:2031-2035 | The loop over the copied subscriber list, run on the objects with callbacks that subscribe more contracts on the same transport, equals the loop of the specification |
| StreamEntryPoints.FailWithCallbacks | market_connector/exchanges/interactive_brokers/transport.py:2056-2074 | A failing code with such callbacks equals its specification on the objects: the stream dropped, its list cleared, each subscriber told and each callback's subscriptions made where they are called |
| StreamEntryPoints.LinesAreTheDicts | market_connector/exchanges/interactive_brokers/transport.py:682-699 | On the fields themselves: the line count is the sum of the sizes of the three stream dicts and at most the cap |
| StreamTransport.IbStreamTransport.constructor | market_connector/exchanges/interactive_brokers/transport.py:647-657 | A new transport has every dict empty and is the ledger's initial state |
| StreamTransport.IbStreamTransport.Subscribe | market_connector/exchanges/interactive_brokers/transport.py:1741-1831 | The subscribe stretch equals its transition: a new handle on the shared stream, or nothing but the sequence number changed on failure |
| StreamTransport.IbStreamTransport.AcquireTrades | market_connector/exchanges/interactive_brokers/transport.py:1833-1848 | Equals the transition that finds or opens a trades stream and counts one more user |
| StreamTransport.IbStreamTransport.AcquireDepth | market_connector/exchanges/interactive_brokers/transport.py:2076-2094 | The same for depth, disarming the idle timer |
| StreamTransport.IbStreamTransport.ReleaseTrades | market_connector/exchanges/interactive_brokers/transport.py:1850-1854 | Equals the transition: the last user drops the stream |
| StreamTransport.IbStreamTransport.ReleaseDepth | market_connector/exchanges/interactive_brokers/transport.py:2096-2109 | Equals the transition: the last user of the registered object arms the timer, or drops it when no loop runs |
| StreamTransport.IbStreamTransport.IdleExpired | market_connector/exchanges/interactive_brokers/transport.py:2111-2114 | Equals the transition: dropped only if unused and still the registered object |
| StreamTransport.IbStreamTransport.DropTrades | market_connector/exchanges/interactive_brokers/transport.py:1884-1895 | Equals the transition; does nothing to an object that is no longer registered |
| StreamTransport.IbStreamTransport.DropStream | market_connector/exchanges/interactive_brokers/transport.py:1994-2010 | Equals the transition, with the identity test on the dict |
| StreamTransport.IbStreamTransport.Close | market_connector/exchanges/interactive_brokers/transport.py:546-550 | Equals the transition; idempotent |
| StreamTransport.IbStreamTransport.Notify | market_connector/exchanges/interactive_brokers/transport.py:1819-1828 | Equals the transition: error set and handle closed before the callback, nothing on a closed handle |
| StreamTransport.IbStreamTransport.FailSubscribers | market_connector/exchanges/interactive_brokers/transport.py:2031-2035 | The loop over the copied list equals notifying each listed subscriber in order |
| StreamTransport.IbStreamTransport.FailStream | market_connector/exchanges/interactive_brokers/transport.py:2012-2035 | Equals the transition: dropped if registered, then its subscribers are failed |
| StreamTransport.IbStreamTransport.FailTrades | market_connector/exchanges/interactive_brokers/transport.py:2037-2054 | Equals the transition |
| StreamTransport.IbStreamTransport.OnStreamError | market_connector/exchanges/interactive_brokers/transport.py:2056-2074 | Equals the transition for every code and reqId |
| StreamTransport.IbStreamTransport.TimedOut | market_connector/exchanges/interactive_brokers/transport.py:2165-2174 | Equals the transition: released after a soft warning only by the sole holder |
| StreamTransport.IbStreamTransport.DepthSnapshotBegin | market_connector/exchanges/interactive_brokers/transport.py:2229-2229 | Equals the transition |
| StreamTransport.IbStreamTransport.DepthSnapshotEnd | market_connector/exchanges/interactive_brokers/transport.py:2236-2242 | Equals the transition |
| StreamTransport.IbStreamTransport.TopOfBookBegin | market_connector/exchanges/interactive_brokers/transport.py:2191-2198 | Equals the transition |
| StreamTransport.IbStreamTransport.ResubscribeTrades | market_connector/exchanges/interactive_brokers/transport.py:1897-1905 | Equals the transition for any of its calls raising |
| StreamTransport.IbStreamTransport.ResubscribeStream | market_connector/exchanges/interactive_brokers/transport.py:1935-1946 | Equals the transition for any of its calls raising |
| StreamTransport.IbStreamTransport.ResubscribeAll | market_connector/exchanges/interactive_brokers/transport.py:1907-1921 | The three loops equal moving each registered stream once, in dict order |
| StreamTransport.IbStreamTransport.ReleaseAllStreams | market_connector/exchanges/interactive_brokers/transport.py:1984-1990 | The loops equal dropping each registered stream once |
| FillDedup.NothingPublishedTwice | market_connector/exchanges/interactive_brokers/transport.py:905-922 | Over any interleaving of live and reconciled fills with at most 10000 distinct bases: no execution id is published twice, the suffixes of each base strictly increase, and exactly the publications that are not a base's first are marked corrections |
| FillDedup.ReconcileSeenPublishesNothing | market_connector/exchanges/interactive_brokers/transport.py:936-956 | A reconciliation that only brings executions already ingested, in any order and any number of times, publishes nothing |
| FillDedup.ReplayPublishesNothing | market_connector/exchanges/interactive_brokers/transport.py:905-922 | Without any bound on the bases: an arrival that comes again publishes nothing if its base was remembered ever since |
| FillDedup.LaterIsNewerCorrection | market_connector/exchanges/interactive_brokers/transport.py:913-922 | Two publications of one base with at most 10000 distinct bases from the first up to the second: the second is a correction, strictly newer and has another id |
| FillDedup.ResendDroppedExactly | market_connector/exchanges/interactive_brokers/transport.py:878-884 | An arriving execution of a base published before is dropped if and only if it is no newer than the base's last publication and fewer than 10000 distinct bases were published since |
| FillDedup.ForgottenFillIsPublishedAgain | market_connector/exchanges/interactive_brokers/transport.py:878-884 | The failing side is reached from the start: a fill, then 10000 fills of other bases, then the first one again by reconciliation is published again, and as no correction |
| FillDedup.DotlessSuffixExactly | market_connector/exchanges/interactive_brokers/transport.py:895-903 | An id without a dot gives -1, as the docstring of _exec_suffix promises, if and only if it is empty, is no number, or is the number -1 |
| FillDedup.DotlessIdWithSuffix | market_connector/exchanges/interactive_brokers/transport.py:895-903 | A dotless id that gives another suffix |
| FillDedup.TwoIdsOfATrade | market_connector/exchanges/interactive_brokers/transport.py:905-922 | After any arrivals without ids of the trade p, of p.q and p.q2 with numbers behind the dot the first is published as new and the second as its correction if its number is greater, and not at all otherwise, each with the mark of where it came from |
| FillDedup.NewerIdIsACorrectionExactly | market_connector/exchanges/interactive_brokers/transport.py:913-922 | While p.q is the last id published of its trade and fewer than 10000 other trades came since, the next id of p is published if and only if its number is greater, and as a correction |
| FillDedup.OtherTradesDoNotMatter | market_connector/exchanges/interactive_brokers/transport.py:912-922 | As long as none is forgotten, publications of other trades never change what becomes of an id |
| FillDedup.BaseOfDotted | market_connector/exchanges/interactive_brokers/transport.py:913-913 | The base of p.q is p, for p not empty and q without a dot |
| FillDedup.BaseOfPlain | market_connector/exchanges/interactive_brokers/transport.py:913-913 | An id without a dot, or with its only dot in front, is its own base |
| FillDedup.SuffixOfDotted | market_connector/exchanges/interactive_brokers/transport.py:895-903 | The suffix of p.q is the number q, or -1 when q is empty or no number |
| FillDedup.RecentIsFewSince | market_connector/exchanges/interactive_brokers/transport.py:878-884 | The memory holds exactly the elements followed by fewer than its capacity of distinct others |
| FillDedup.RunWellPublished | market_connector/exchanges/interactive_brokers/transport.py:905-922 | Every published event was publishable after its predecessors, and is marked a correction exactly when its base was remembered then |
| FillDedup.PublishedBases | market_connector/exchanges/interactive_brokers/transport.py:914-918 | Every base that arrives is published at least once, and no other |
| FillDedup.LatestOnlyRises | market_connector/exchanges/interactive_brokers/transport.py:915-918 | While a base stays remembered the suffix of its last publication never falls |
| FillDedup.PublishedNext | market_connector/exchanges/interactive_brokers/transport.py:878-884 | One more publication moves its base to the newest end of the truncated recency order and leaves every other base's last execution as it was |
| FillDedup.FeeRepeatsExactly | market_connector/exchanges/interactive_brokers/transport.py:924-934 | A fee published before and arriving again is published again if and only if at least 10000 distinct fees were published since its last publication |
| FillDedup.ForgottenFeeIsPublishedAgain | market_connector/exchanges/interactive_brokers/transport.py:924-934 | The failing side is reached: a fee, 10000 other fees, and the first one again |
| FillDedup.FeeRepeatsOnlyWhenForgotten | market_connector/exchanges/interactive_brokers/transport.py:924-934 | Any two publications of one fee have more than 10000 distinct fees from the first up to the second |
| FillDedup.FeesPublishedOnce | market_connector/exchanges/interactive_brokers/transport.py:924-934 | With at most 10000 distinct fees none is published twice |
| FillDedup.EveryFeeIsPublished | market_connector/exchanges/interactive_brokers/transport.py:927-933 | A fee is published if and only if a report with its non-empty id and a fee arrived |
| FillDedup.FillTable.Remember | market_connector/exchanges/interactive_brokers/transport.py:878-884 | The insert, move-to-end and eviction loop leaves the newest 10000 keys, in recency order, with their values |
| FillDedup.FillTable.IngestFill | market_connector/exchanges/interactive_brokers/transport.py:905-922 | The table always equals the specification's memory, has at most 10000 entries, and a fill is published exactly when the specification says so |
| ContractResolver.EveryRunKeepsCache | market_connector/exchanges/interactive_brokers/contract_resolver.py:83-180 | Every run of concurrent resolves and invalidations: at most 1024 entries, every index entry is the most recently fetched cached entry with its conId, at most one request is at IB and its reference is not cached; and without any invalidate(ref) every cached contract can be found by its conId |
| ContractResolver.ConcurrentResolvesShareOneFetch | market_connector/exchanges/interactive_brokers/contract_resolver.py:90-140 | Without invalidation, in runs of any length with any number of evictions and concurrent tasks: IB is asked for a reference at most as often as it failed to answer plus once per started window of 1025 fetches, and at least once more than it failed as soon as a task got a contract fetched for it; any two tasks that resolved a reference without conId hold the same object or objects fetched more than 1024 fetches apart |
| ContractResolver.FirstContractsShareOneFetch | market_connector/exchanges/interactive_brokers/contract_resolver.py:90-140 | So until the first eviction IB is asked at most once more than it failed, and all tasks that resolved a reference without conId hold one object |
| ContractResolver.FetchedOncePerWindow | market_connector/exchanges/interactive_brokers/contract_resolver.py:134-140 | A sequence of fetches in which equal references lie more than 1024 apart has each of them at most once per started window of 1025 |
| ContractResolver.SpacedKept | market_connector/exchanges/interactive_brokers/contract_resolver.py:95-140 | A step fetches a reference again only after more than 1024 others |
| ContractResolver.EveryRunShares | market_connector/exchanges/interactive_brokers/contract_resolver.py:90-140 | In every run a finished resolve holds a contract that was fetched for its reference or carries its conId, and requests sent are requests answered plus the one in flight; without invalidation two fetches of one reference lie more than 1024 fetches apart and the cache is exactly the last 1024 successful fetches in order |
| ContractResolver.InsertKeeps | market_connector/exchanges/interactive_brokers/contract_resolver.py:134-140 | Insert with eviction keeps the cache invariant and the completeness of the index |
| ContractResolver.MakeRoomKeeps | market_connector/exchanges/interactive_brokers/contract_resolver.py:77-81 | Evicting the oldest entry never leaves its conId dangling and never hides a younger entry that shares it |
| ContractResolver.InvalidateKeeps | market_connector/exchanges/interactive_brokers/contract_resolver.py:172-180 | invalidate(ref) removes exactly that entry and keeps the index sound |
| ContractResolver.InvalidateCompleteExactly | market_connector/exchanges/interactive_brokers/contract_resolver.py:178-180 | invalidate(ref) keeps every cached contract findable by conId if and only if no other cached entry shares the removed one's conId |
| ContractResolver.SharedIdIsForgotten | market_connector/exchanges/interactive_brokers/contract_resolver.py:178-180 | A concrete cache in which invalidating one of two sharers makes the other unreachable by conId |
| ContractResolver.InvalidateForgetsExactly | market_connector/exchanges/interactive_brokers/contract_resolver.py:172-180 | After invalidate(ref) the cache misses ref if and only if ref has no conId, or its conId was not indexed, or the removed entry carried it: a reference served from another entry through the index is not forgotten |
| ContractResolver.AnswerExactly | market_connector/exchanges/interactive_brokers/contract_resolver.py:103-144 | One match ends the request with the new contract, which then serves its reference and its conId; an exception, no match or several end it with an error and leave the cache as it was; the lock is free again either way |
| ContractResolver.LookupPrefersRef | market_connector/exchanges/interactive_brokers/contract_resolver.py:70-75 | A look-up returns what was fetched for the reference itself, and only without that a cached contract with its conId |
| ContractResolver.ServedAtOnceExactly | market_connector/exchanges/interactive_brokers/contract_resolver.py:90-93 | A resolve called right after invalidate(ref) or invalidate() is served without waiting if and only if the cache did not forget ref in that sense, which invalidate() always does |
| ContractResolver.AsksAgainExactly | market_connector/exchanges/interactive_brokers/contract_resolver.py:90-140 | In every run, when that resolve has to wait and gets the lock without another invalidation in between, it asks IB if and only if none of the contracts that came in since the invalidation, the newest 1024 of them, was fetched for ref or carries its conId, on whatever request |
| ContractResolver.IdleInvalidationAsksAgainExactly | market_connector/exchanges/interactive_brokers/contract_resolver.py:90-103 | With no request at IB at the invalidation, the next resolve that gets the lock at once asks IB if and only if the cache forgot ref |
| ContractResolver.LateAnswerServesExactly | market_connector/exchanges/interactive_brokers/contract_resolver.py:95-140 | With a request at IB at the invalidation, the waiting resolve asks again if and only if that request brings no single match, or one for another reference and with another conId than ref asks for |
| ContractResolver.OldAnswerIsServed | market_connector/exchanges/interactive_brokers/contract_resolver.py:95-101 | The failing side is reached: invalidate(ref), or invalidate(), while the first request for ref is at IB, and the next resolve is given the old answer with one request sent in all |
| ContractResolver.IndexServedIsKept | market_connector/exchanges/interactive_brokers/contract_resolver.py:172-180 | The failing side is reached: one insertion into the empty cache serves a second reference through its conId, and invalidating that reference changes nothing |
| ContractResolver.StepKeeps | market_connector/exchanges/interactive_brokers/contract_resolver.py:83-180 | Every step keeps the cache, index and lock invariants |
| ContractResolver.IbContractResolver.Resolve | market_connector/exchanges/interactive_brokers/contract_resolver.py:90-93 | The fast path equals its step |
| ContractResolver.IbContractResolver.Recheck | market_connector/exchanges/interactive_brokers/contract_resolver.py:95-101 | The second look-up under the lock equals its step |
| ContractResolver.IbContractResolver.Answered | market_connector/exchanges/interactive_brokers/contract_resolver.py:103-140 | What follows IB's answer equals its step: only a single match is cached |
| ContractResolver.IbContractResolver.DropFromIndex | market_connector/exchanges/interactive_brokers/contract_resolver.py:77-81 | Equals the specification of _drop_con_id |
| ContractResolver.IbContractResolver.Invalidate | market_connector/exchanges/interactive_brokers/contract_resolver.py:172-180 | Equals its step, for one reference and for all |
| KrakenOrders.EveryRunIsCappedAndCharged | market_connector/exchanges/kraken/mixins/orders.py:136-395 | Every run of non-overlapping calls whose replies arrive, with any fills at any moment, in which each cancellation names, when it is called, orders that are still counted, once each and on their own pair, whether or not they have filled by then or fill before Kraken acts: between calls the local count is at least the number of open orders; no pair ever exceeds the tier's cap, not even through the call under way; and, when amendments are called for under the pairs their orders are open on, every amend, edit, cancel and batch was charged, on the pair each of its orders is really open on, at least what Kraken counts there for the true ages |
| KrakenOrders.ChargedEnoughExactly | market_connector/exchanges/kraken/mixins/orders.py:227-395 | In every such run everything was charged enough if and only if every amendment that Kraken acted on named the pair its order was open on; Kraken is sent no pair with an amendment |
| KrakenOrders.OwnAtTheCallIsEnough | market_connector/exchanges/kraken/mixins/orders.py:262-291 | It is enough that each amendment names its order's own pair at the moment of the call, if the order is open then |
| KrakenOrders.ChangeCoveredExactly | market_connector/exchanges/kraken/mixins/orders.py:286-287 | An amendment or edit is charged enough if and only if it names the pair its order is open on |
| KrakenOrders.CancelIsCovered | market_connector/exchanges/kraken/mixins/orders.py:385-389 | A cancellation that names those of its orders that are still open under their own pairs is charged enough on every pair |
| KrakenOrders.WrongPairIsUndercharged | market_connector/exchanges/kraken/mixins/orders.py:286-287 | The failing side is reached: an order placed on one pair and amended under another leaves the first pair charged nothing where Kraken counts 4 units |
| KrakenOrders.OnlyFillsLoosen | market_connector/exchanges/kraken/mixins/orders.py:160-163 | Without fills the local count is exactly the number of open orders whenever no call is running |
| KrakenOrders.PromptRunsChargeExactly | market_connector/exchanges/kraken/mixins/orders.py:221-290 | The charges are no more cautious than needed: when no time passes between computing the units, Kraken's acting and the reply, and orders are cancelled while open and changed under their own pairs, every call is charged, pair by pair, exactly what Kraken counts |
| KrakenOrders.RefusedExactlyWhenFull | market_connector/exchanges/kraken/mixins/orders.py:154-157 | Behind a listing, a call is refused if and only if the pair was too full when Kraken listed it |
| KrakenOrders.CancelKeepsBoundExactly | market_connector/exchanges/kraken/mixins/orders.py:391-394 | In every idle state of such a run and for any list of orders: the reply to its cancellation keeps the upper bound on a pair, whichever of the counted orders have filled, if and only if the list has no more entries under the pair than it names different counted orders of the pair, or names all of them; all of that is known to the client before the call, and when it holds the bound holds for the orders really open |
| KrakenOrders.StepKeeps | market_connector/exchanges/kraken/mixins/orders.py:175-395 | Every step keeps the tally, the bound, the cap, the recorded times and the charges, for any cancellation that names counted orders when it is called |
| KrakenOrders.OpenAtTheCallIsEnough | market_connector/exchanges/kraken/mixins/orders.py:371-394 | That hypothesis holds of every run whose cancellations name orders open on their own pair at the moment of the call, once each; no condition on what fills afterwards |
| KrakenOrders.TalliedKept | market_connector/exchanges/kraken/mixins/orders.py:136-395 | Every step keeps the local count of each pair equal to the number of its counted orders, and every open order counted or about to be |
| KrakenOrders.TallyBounds | market_connector/exchanges/kraken/mixins/orders.py:160-163 | With that, the local count plus what the running call is about to add is at least the number of open orders |
| KrakenOrders.AddTallied | market_connector/exchanges/kraken/mixins/orders.py:222-224 | A placement counts exactly its orders, even when they fill before the reply |
| KrakenOrders.CancelTallied | market_connector/exchanges/kraken/mixins/orders.py:391-394 | The per-order decrements of a batch uncount exactly the orders it names, even when some of them filled before Kraken acted |
| KrakenOrders.ChangeTallied | market_connector/exchanges/kraken/mixins/orders.py:318-325 | Amending moves no count, and editing counts the new order for the old one |
| KrakenOrders.PlaceKeeps | market_connector/exchanges/kraken/mixins/orders.py:141-157 | A call passes only when the count, local or re-read, leaves room below the cap |
| KrakenOrders.ActsKeep | market_connector/exchanges/kraken/mixins/orders.py:221-224 | What Kraken does for an accepted call stays below the cap, and nothing else adds orders |
| KrakenOrders.CancellingTwiceLosesTheBound | market_connector/exchanges/kraken/mixins/orders.py:391-394 | The failing side is reached from the start: two orders placed, one fills, and cancelling that one twice leaves the local count at 0 with an order open |
| KrakenOrders.TimedKept | market_connector/exchanges/kraken/mixins/orders.py:285-290 | Recorded times are never earlier than the moment Kraken started the order's age, except between an amendment and its reply |
| KrakenOrders.CostCovers | market_connector/exchanges/kraken/mixins/orders.py:130-133 | At whatever later moment Kraken acts, an order's true cost is at most the units computed before the request; an unknown order is charged as new |
| KrakenOrders.ChargeKept | market_connector/exchanges/kraken/mixins/orders.py:385-389 | A step adds a charge that is too low on some pair if and only if it amends an order named under another pair; the amounts due are kept under the pairs the orders are open on |
| KrakenOrders.OrdersMixin.EnsureRoom | market_connector/exchanges/kraken/mixins/orders.py:147-153 | Equals its step |
| KrakenOrders.OrdersMixin.OpenOrdersListed | market_connector/exchanges/kraken/mixins/orders.py:154-157 | The count over the listing replaces the local count, and the answer is the step's |
| KrakenOrders.OrdersMixin.OrdersPlaced | market_connector/exchanges/kraken/mixins/orders.py:221-224 | Equals its step |
| KrakenOrders.OrdersMixin.CancelUnits | market_connector/exchanges/kraken/mixins/orders.py:385-387 | The accumulating loop computes the per-pair sums of the specification |
| KrakenOrders.OrdersMixin.OrdersCancelled | market_connector/exchanges/kraken/mixins/orders.py:392-394 | The loop equals its step |
| KrakenOrders.OrdersMixin.ChangeUnits | market_connector/exchanges/kraken/mixins/orders.py:286-286 | Equals its step |
| KrakenOrders.OrdersMixin.OrderAmended | market_connector/exchanges/kraken/mixins/orders.py:290-290 | Equals its step |
| KrakenOrders.OrdersMixin.OrderEdited | market_connector/exchanges/kraken/mixins/orders.py:322-325 | Equals its step |
| KrakenOrders.PlacedAtOnceExactly | market_connector/exchanges/kraken/mixins/orders.py:147-153 | A call goes out without a listing if and only if the local count leaves room below the tier's cap of 60, 80 or 225 |
| KrakenOrders.RecordedTimesExactly | market_connector/exchanges/kraken/mixins/orders.py:221-325 | A reply records the time of what it placed, amended or put in, forgets that of what it cancelled or replaced, and touches no other |
| KrakenOrders.CostByAge | market_connector/exchanges/kraken/age_penalties.py:12-43 | The units for every age, with the bounds of each row |
| KrakenOrders.OlderIsCheaper | market_connector/exchanges/kraken/age_penalties.py:24-28 | First-match lookup in a table of falling units never charges an older order more |
| KrakenOrders.CostFalls | market_connector/exchanges/kraken/age_penalties.py:12-43 | The three penalty tables fall with age and never charge a negative amount |
| ErrorRouter.TablesByCode | market_connector/exchanges/interactive_brokers/_error_router.py:122-205 | For every code, message and state: the connection-lost codes and 1300 empty both tables; 201, 202, 321, 325 and 10243 remove exactly the order waiter of the id; 100, 162, 165, 200, 309, 354, 420, 10089 and 10197 exactly the request waiter; every other code leaves both tables alone |
| ErrorRouter.OnlyItsWaiterFails | market_connector/exchanges/interactive_brokers/_error_router.py:241-244 | A code changes at most the pending future that waits under its id in the table it belongs to, and fails it with that code |
| ErrorRouter.OutcomesByCode | market_connector/exchanges/interactive_brokers/_error_router.py:151-181 | Informational, farm, 317, 10090, 1101, 1102 and unrouted codes touch no future |
| ErrorRouter.ClearingFailsEveryWaiter | market_connector/exchanges/interactive_brokers/_error_router.py:255-263 | A connection-lost code or 1300 fails exactly the pending registered futures, with the connection error of that code |
| ErrorRouter.ToldByCode | market_connector/exchanges/interactive_brokers/_error_router.py:122-205 | What one call tells, by code: 1101 and 1102 the connection back, 1101 then one loss of data; every other code the stream error first, and behind it pacing exactly for 420 and a pacing 162, the depth reset exactly for 317, the loss of the connection exactly for 1100, 2110, 502 and 504, the farm and its state exactly for the six farm codes |
| ErrorRouter.EveryLossIsTold | market_connector/exchanges/interactive_brokers/_error_router.py:133-138 | In every run the data-lost listeners are told exactly as often as IB reported 1101 |
| ErrorRouter.WaiterFailsWith | market_connector/exchanges/interactive_brokers/_error_router.py:183-239 | The kind, code, text and hint with which the waiter of each order and request code fails |
| ErrorRouter.CompletesOnce | market_connector/exchanges/interactive_brokers/_error_router.py:241-261 | In any run, a future that is done is never changed again |
| ErrorRouter.WaiterLostExactly | market_connector/exchanges/interactive_brokers/_error_router.py:241-263 | No error code and no dropped socket ever takes a pending waiter out of its table without failing it; a pending waiter is lost if and only if a second one is registered under its key or its key is dropped |
| ErrorRouter.EveryRunKeepsTables | market_connector/exchanges/interactive_brokers/_error_router.py:93-94 | In any run of codes, waits, connects and dropped sockets no future is registered twice; and as long as no waiter was displaced, every pending future is still waiting in a table |
| ErrorRouter.ConnectionLossFailsEverything | market_connector/exchanges/interactive_brokers/_error_router.py:168-176 | When such a run meets a connection-lost code, 1300 or a dropped socket, no future at all is left pending and both tables are empty |
| ErrorRouter.FlagsAreTheLastNews | market_connector/exchanges/interactive_brokers/_error_router.py:247-253 | After any run the stale farms are exactly those whose last status was broken, the connection flag is what the last connectivity code or the transport said, and each recorded cancellation text is the last one that came |
| ErrorRouter.Router.HandleError | market_connector/exchanges/interactive_brokers/_error_router.py:122-205 | The branches on the mutable tables and futures equal the specification for every code |
| ErrorRouter.Router.FailWaiter | market_connector/exchanges/interactive_brokers/_error_router.py:241-245 | Pops the waiter and fails it unless it is done |
| ErrorRouter.Router.FailAll | market_connector/exchanges/interactive_brokers/_error_router.py:255-263 | The loop fails each pending registered future once and empties both tables |
| ErrorRouter.Router.SocketDrops | market_connector/exchanges/interactive_brokers/transport.py:984-991 | What a dropped socket does to the router: the flag down and every waiter failed with 1100 |
| ErrorRouter.Router.Register | market_connector/exchanges/interactive_brokers/transport.py:1593-1596 | Registering a waiter equals its step |
| Reconnect.EveryRunHasOneSupervisor | market_connector/exchanges/interactive_brokers/transport.py:984-1019 | Every run, overlapping and cancelled calls of connect() included: the transport's handlers are on each IB event at most once, through any reconnects; every supervisor sleeps initial, 2*initial, 4*initial and so on, cut off at the maximum; as long as connect() is not called while disconnect() awaits a cancelled supervisor, at most one supervisor is unfinished; and where calls of connect() do not overlap its flag is up exactly while one runs |
| Reconnect.DroppedStartsExactly | market_connector/exchanges/interactive_brokers/transport.py:984-993 | In every run a lost connection starts a supervisor if and only if disconnect() was not called since the last connect(), none is running, and no call of connect() began without one ending since; otherwise it changes nothing |
| Reconnect.FlagUpExactly | market_connector/exchanges/interactive_brokers/transport.py:732-757 | The connect flag is up exactly when a call of connect() began and none has ended since |
| Reconnect.NoSupervisorDuringConnect | market_connector/exchanges/interactive_brokers/transport.py:728-730 | So a connection lost during a call of connect() starts no supervisor as long as no call has ended since it began |
| Reconnect.OverlapStartsASupervisor | market_connector/exchanges/interactive_brokers/transport.py:732-757 | The failing side is reached: of two overlapping calls the first ends, and a loss during the second starts a supervisor |
| Reconnect.SecondSupervisorExactly | market_connector/exchanges/interactive_brokers/transport.py:984-1036 | That hypothesis is exact: from every state with at most one, a connect() that succeeds and then loses the connection leaves at most one unfinished supervisor if and only if it was not called while disconnect() awaits an unfinished one |
| Reconnect.ConnectDuringDisconnectStartsASecond | market_connector/exchanges/interactive_brokers/transport.py:1029-1036 | The failing side is reached: a complete run in which connect() during disconnect() leads to two unfinished supervisors |
| Reconnect.AttachedExactly | market_connector/exchanges/interactive_brokers/transport.py:860-876 | In every run IB's events carry the transport's handlers, each once, if and only if a call or a supervisor got its socket open and since then nothing that was syncing failed or was cancelled and no disconnect() came to its end |
| Reconnect.FailedConnectLeavesNothing | market_connector/exchanges/interactive_brokers/transport.py:722-730 | A first connect() that fails, after however many tries and lost connections, leaves no handler, no supervisor and no event that could start one |
| Reconnect.FailedSyncLeavesNothing | market_connector/exchanges/interactive_brokers/transport.py:770-777 | So does any call that fails or is cancelled while it syncs, or with nothing established |
| Reconnect.SupervisorEndsExactly | market_connector/exchanges/interactive_brokers/transport.py:995-1017 | A supervisor ends if and only if it succeeds, meets a configuration error or is cancelled; it sleeps again exactly after any other failure |
| Reconnect.FinishedStays | market_connector/exchanges/interactive_brokers/transport.py:995-1017 | A finished supervisor never runs again |
| Reconnect.ClosingExactly | market_connector/exchanges/interactive_brokers/transport.py:732-732 | The transport is closing if and only if disconnect() was called since the last connect() |
| Reconnect.SupervisorKept | market_connector/exchanges/interactive_brokers/transport.py:984-993 | Every step keeps at most one supervisor unfinished, under that hypothesis |
| Reconnect.HooksKept | market_connector/exchanges/interactive_brokers/transport.py:860-876 | Attach and detach in any order keep each handler on its event at most once |
| Reconnect.CallKept | market_connector/exchanges/interactive_brokers/transport.py:732-757 | Without overlapping calls each step keeps the flag up exactly while one runs |
| Reconnect.DelaysKept | market_connector/exchanges/interactive_brokers/transport.py:997-1015 | Every step keeps each supervisor's slept delays the prefix of the backoff |
| Reconnect.DelaysRise | market_connector/exchanges/interactive_brokers/transport.py:1013-1015 | A supervisor's delays start at the initial one, never decrease and never exceed the maximum |
| Reconnect.BackoffRises | market_connector/exchanges/interactive_brokers/transport.py:735-752 | The closed form min(initial * 2^k, max) never decreases and stays within its bounds |
| Reconnect.ConnectLoop | market_connector/exchanges/interactive_brokers/transport.py:733-757 | connect() stops at the first try that does not time out, makes at most the configured number of tries and sleeps once between two tries, for the backoff delays |
| Reconnect.Connection.AttachHandlers | market_connector/exchanges/interactive_brokers/transport.py:860-867 | Equals the specification; a second call changes nothing |
| Reconnect.Connection.DetachHandlers | market_connector/exchanges/interactive_brokers/transport.py:869-876 | Equals the specification |
| Reconnect.Connection.HandleDisconnected | market_connector/exchanges/interactive_brokers/transport.py:984-993 | Equals its step: no supervisor while closing, connecting or already running |
| Reconnect.Connection.BeginConnect | market_connector/exchanges/interactive_brokers/transport.py:732-733 | Equals its step |
| Reconnect.Connection.BeginDisconnect | market_connector/exchanges/interactive_brokers/transport.py:1031-1036 | Equals its step |
| Reconnect.Connection.EndDisconnect | market_connector/exchanges/interactive_brokers/transport.py:1037-1040 | Equals its step |
| LinkedOrders.SettleLegs | market_connector/exchanges/interactive_brokers/transport.py:1335-1375 | For any outcomes of the legs and of the cancels: handles come back, in placement order, exactly when no leg failed; otherwise cancel_order is called once, in placement order, for exactly the legs not known rejected, whatever other cancels raise; the linked error is raised exactly when some leg was rejected, from the first rejection and with all handles, else the first failure is raised again |
| LinkedOrders.Rollback | market_connector/exchanges/interactive_brokers/transport.py:1357-1366 | The rollback loop calls cancel_order for exactly those legs, only the caller's own cancellation cuts it short, and of legs sharing an order id the last failed cancel is kept |
| LinkedOrders.ErrorsExact | market_connector/exchanges/interactive_brokers/transport.py:1362-1366 | With distinct order ids cancel_errors holds exactly the failed cancels, each under its leg's id |
| DepthBook.OwnBookIsTopOfFullBook | market_connector/exchanges/interactive_brokers/transport.py:2128-2147 | For every sequence of ticks, out-of-range ones included, and resets: the own book has at most ten rows a side and is a prefix of the book that the same ticks build without a limit |
| DepthBook.NothingMissingBelowTheCut | market_connector/exchanges/interactive_brokers/transport.py:2133-2136 | If no side of the unlimited book ever passed ten rows, the own book equals it |
| DepthBook.EditShifts | market_connector/exchanges/interactive_brokers/transport.py:2133-2141 | IB's shifting rules row by row: rows in front of the position stay, rows behind it move by one or stay, and an out-of-range tick changes nothing |
| DepthBook.SidesApart | market_connector/exchanges/interactive_brokers/transport.py:2131-2131 | The bid side is made by the ticks of side 1 and the resets alone, the ask side by all others |
| DepthBook.ResetForgets | market_connector/exchanges/interactive_brokers/transport.py:2143-2147 | What came before a reset leaves no trace |
| DepthBook.DeleteUndoesInsertExactly | market_connector/exchanges/interactive_brokers/transport.py:2133-2141 | Deleting the row just inserted restores the side if and only if the insert pushed no row off a full side |
| DepthBook.StreamBook.ApplyDepthTick | market_connector/exchanges/interactive_brokers/transport.py:2129-2141 | The in-place edit equals the specification for every tick |
| DepthBook.StreamBook.ApplyUpdate | market_connector/exchanges/interactive_brokers/transport.py:2120-2121 | All ticks of one update are applied, in order |
| DepthBook.StreamBook.Clear | market_connector/exchanges/interactive_brokers/transport.py:2143-2147 | Empties both sides |
| PnlFeeds.EveryRunKeepsFeeds | market_connector/exchanges/interactive_brokers/transport.py:1425-1461 | In every run each feed object counts exactly its open handles and running snapshots; a registered feed is in use and hooked; every other one is unhooked and was dropped, with one cancel at IB, exactly once; and a request live at IB belongs to a registered feed or was left behind by a cancel that raised |
| PnlFeeds.RequestsTwiceExactly | market_connector/exchanges/interactive_brokers/transport.py:1425-1461 | In every run a key is requested while its request is live at IB if and only if it is opened anew after a cancel of it raised and left the request live, with no later cancel of it and no reset of the connection having taken the request back |
| PnlFeeds.OrphansAreLeftBehind | market_connector/exchanges/interactive_brokers/transport.py:1448-1461 | What a failed cancel left behind is told by the run: some cancel of the key raised with its request live, and nothing has cleared it since |
| PnlFeeds.FailedCancelIsRequestedTwice | market_connector/exchanges/interactive_brokers/transport.py:1458-1461 | The failing side is reached: a feed opened, closed with a raising cancel, and opened again |
| PnlFeeds.StepByKeys | market_connector/exchanges/interactive_brokers/transport.py:1425-1532 | Key by key, what each step does: a key is requested by opening it anew or by a resubscribe whose cancel did not raise, streamed until something takes it back, and registered until its feed is dropped; users come and go with their opens and closes |
| PnlFeeds.StaleReleaseIsHarmless | market_connector/exchanges/interactive_brokers/transport.py:1442-1446 | Closing an old handle of a dropped feed, or ending an old snapshot on it, changes that dead object's count only |
| PnlFeeds.LastUserDropsTheFeed | market_connector/exchanges/interactive_brokers/transport.py:1442-1446 | After a close the feed is dropped if and only if it was dropped already or the closed user was its last |
| PnlFeeds.StepKeeps | market_connector/exchanges/interactive_brokers/transport.py:1425-1532 | Opens, closes, drops, resubscribes and connection resets keep the invariant, whichever calls raise |
| PnlFeeds.PnlTransport.AcquirePnl | market_connector/exchanges/interactive_brokers/transport.py:1425-1440 | Equals its step on the objects; a refused request leaves nothing behind |
| PnlFeeds.PnlTransport.ReleasePnl | market_connector/exchanges/interactive_brokers/transport.py:1442-1446 | Equals its step on the objects |
| PnlFeeds.PnlTransport.DropPnlFeed | market_connector/exchanges/interactive_brokers/transport.py:1448-1461 | Equals its step on the objects |
| SymbolMapper.ConcatSplitsExactly | market_connector/symbols/mapper.py:170-178 | A concatenated pair is split where it was joined if and only if the base is not empty, the quote is not empty and known, and no longer known quote is a suffix too |
| SymbolMapper.ConcatRoundTrip | market_connector/symbols/mapper.py:127-148 | Under exactly that split condition, and aliases that invert each other on both assets, from_exchange_pair(to_exchange_pair(p)) is p, with or without a fallback |
| SymbolMapper.SeparatedRoundTrip | market_connector/symbols/mapper.py:163-168 | With a separator the round trip holds when the aliases invert each other and the separator occurs only where it was put; for one character, when neither asset contains it |
| SymbolMapper.ThereAndBack | market_connector/symbols/mapper.py:127-148 | to_exchange_pair joins the aliased assets in order, and from_exchange_pair translates back what the split gives |
| SymbolMapper.ToExchangeFailsExactly | market_connector/symbols/mapper.py:140-142 | A pair is refused if and only if it is not two halves around one dash, and the error names it |
| SymbolMapper.FallbackDecides | market_connector/symbols/mapper.py:163-189 | When no known quote leaves a base, or the separator does not cut the pair in two, the split is the fallback's canonical answer, and without one an error that names the pair |
| SymbolMapper.IdentityToExactly | market_connector/symbols/mapper.py:59-64 | IdentityMapper swaps the separator of exactly the canonical pairs and names the others in its error |
| SymbolMapper.OrderDoesNotMatter | market_connector/symbols/mapper.py:170-175 | The split depends on which quotes are known, not on their order or repetition |
| SymbolMapper.BestIsLongest | market_connector/symbols/mapper.py:171-174 | The loop's choice is the longest known quote that is a suffix, and none exactly when there is none |
| SymbolMapper.SplitExchangePair | market_connector/symbols/mapper.py:162-179 | The loop computes the specified split; without separator and fallback its two parts make up the pair, with a non-empty base and a known quote |
| SymbolMapper.KrakenRoundTripsExactly | market_connector/exchanges/kraken/specs.py:188-237 | With Kraken's tables a pair comes back unchanged if and only if it is quoted in USD, EUR, GBP, CAD, JPY, AUD or ETH and its base is not empty and not itself one of Kraken's codes; so no BTC-quoted pair does |
| SymbolMapper.BtcQuoted | market_connector/exchanges/kraken/specs.py:211-228 | Why: XBT is no known quote, and XXBT takes an X off the base |
| SymbolMapper.IdentityRoundTrip | market_connector/symbols/mapper.py:59-71 | IdentityMapper: a pair comes back if and only if its joined form splits where it was joined; for one character, if and only if neither half has it |
| SymbolMapper.IdentityRoundTripBack | market_connector/symbols/mapper.py:59-71 | The other way round: an exchange pair whose halves have no dash comes back unchanged |
| SymbolMapper.SplitExactly | market_connector/symbols/mapper.py:165-167 | Joining two parts and splitting gives them back if and only if the separator starts nowhere else |
| SymbolMapper.JoinSplit | market_connector/symbols/mapper.py:61-64 | Joining what was split gives the string back |
| WsRouting.PickExactly | market_connector/hb_compat/event_bus.py:70-78 | The exact slot's handler is picked if there is one, else the channel-wide one, else none |
| WsRouting.TargetIsPicked | market_connector/hb_compat/event_bus.py:70-78 | The slot a frame is published under is the one whose handler is picked |
| WsRouting.RoutesAsDictExactly | market_connector/hb_compat/event_bus.py:62-78 | A frame reaches exactly the handler the dict would pick, once, if and only if no other registered slot shares the picked slot's key |
| WsRouting.PlainSlotsRouteAsDict | market_connector/hb_compat/event_bus.py:62-78 | Where no channel holds a colon and no pair is *, that is always so |
| WsRouting.PlainKeysDiffer | market_connector/hb_compat/event_bus.py:22-24 | Such slots have distinct keys |
| WsRouting.KeysCollide | market_connector/hb_compat/event_bus.py:22-24 | Without either condition two slots share a key |
| WsRouting.SharedKeyReachesBoth | market_connector/hb_compat/event_bus.py:49-78 | Two subscriptions on an empty table whose slots share a key, and a frame for the first that reaches both handlers |
| WsRouting.SubscribedRefines | market_connector/hb_compat/event_bus.py:49-54 | A subscription keeps one live bus entry for each registered slot, with the dict's handler, and nothing else |
| WsRouting.UnsubscribedRefines | market_connector/hb_compat/event_bus.py:56-60 | So does its removal |
| WsRouting.WsRoutingTable.Subscribe | market_connector/hb_compat/event_bus.py:49-54 | The table becomes the dict with the slot set, replacing an earlier handler |
| WsRouting.WsRoutingTable.Unsubscribe | market_connector/hb_compat/event_bus.py:56-60 | The table becomes the dict without the slot; idempotent |
| WsRouting.WsRoutingTable.Route | market_connector/hb_compat/event_bus.py:62-78 | Found exactly when the dict or its channel-wide fallback has a handler; the payload reaches that handler once and no other if and only if no other registered slot has the picked slot's key, so always among plain slots |
| WsRouting.WsRoutingTable.Clear | market_connector/hb_compat/event_bus.py:80-83 | Leaves no registration and no live bus entry |
| TradeIds.IdsAreUnique | market_connector/exchanges/interactive_brokers/mixins/subscriptions.py:31-49 | In any run whose seconds never go back across the contracts sharing the counter, no two printed ids are equal |
| TradeIds.CounterCountsSince | market_connector/exchanges/interactive_brokers/mixins/subscriptions.py:41-48 | For every sequence of ticks, in order or not, the counter holds for each contract and second exactly the number of its ticks since the last tick of a later second |
| TradeIds.SameIdExactly | market_connector/exchanges/interactive_brokers/mixins/subscriptions.py:31-49 | For any order of arrival two ticks print the same id if and only if they are equal ticks of one contract and as many ticks of their second preceded each of them since the last tick of a later second |
| TradeIds.SameIdNeedsLaterSecond | market_connector/exchanges/interactive_brokers/mixins/subscriptions.py:41-48 | Two ticks share an id only if a tick of a later second came between them |
| TradeIds.LateTickRepeatsAnId | market_connector/exchanges/interactive_brokers/mixins/subscriptions.py:45-48 | A late tick after a newer second does repeat an id |
| TradeIds.OnlyNewestSecond | market_connector/exchanges/interactive_brokers/mixins/subscriptions.py:46-48 | In such a run the counter holds only keys of the newest second |
| TradeIds.NumberedWithinTheSecond | market_connector/exchanges/interactive_brokers/mixins/subscriptions.py:41-49 | Where time does not go back, an id carries the contract, the time and the number of earlier ticks of the contract in its second |
| TradeIds.RenderSplits | market_connector/exchanges/interactive_brokers/mixins/subscriptions.py:49-49 | A printed id falls apart at its colons into contract, time and number |
| TradeIds.DecimalValue | market_connector/exchanges/interactive_brokers/mixins/subscriptions.py:49-49 | Printed numbers are decimal, negative ones with a minus sign |
| TradeIds.RenderInjective | market_connector/exchanges/interactive_brokers/mixins/subscriptions.py:49-49 | Equal printed ids come from equal parts |
| TradeIds.TickCounter.SyntheticTradeId | market_connector/exchanges/interactive_brokers/mixins/subscriptions.py:31-49 | The in-place counter and the returned string equal the specification |
| CompatMatrix.UpsertIsIdempotent | scripts/ib_gateway_compat.py:78-97 | On a text with both markers and the two header lines, for a row whose cells are trimmed and free of pipes, line breaks and the end marker: the table becomes the upserted table, the text up to the end of the start marker and from the end marker on is unchanged, and upserting again changes nothing |
| CompatMatrix.LinesIdempotentExactly | scripts/ib_gateway_compat.py:87-96 | On the table lines upserting twice is upserting once if and only if the two header lines are there |
| CompatMatrix.OthersKeepOrder | scripts/ib_gateway_compat.py:90-96 | One line is replaced, the first with the row's key, or one is inserted behind the header; the header and all other rows stay in order |
| CompatMatrix.RowHasItsKey | scripts/ib_gateway_compat.py:91-92 | A printed row is found under its own channel and build and under no other pair of them |
| CompatMatrix.RowReadsBack | scripts/ib_gateway_compat.py:63-75 | Every field of a printed row reads back from its own column |
| CompatMatrix.UpsertFailsExactly | scripts/ib_gateway_compat.py:79-84 | upsert_row refuses a text if and only if a marker is missing, or the first end marker stands before the first start marker |
| CompatMatrix.UpsertReplacesTheTable | scripts/ib_gateway_compat.py:78-97 | On any text with both markers in place the table becomes the upserted one, and all before and behind it stays |
| CompatMatrix.CellsRoundTrip | scripts/ib_gateway_compat.py:63-75 | Reading the cells of a printed row gives the cells back |
| CompatMatrix.LinesRoundTrip | scripts/ib_gateway_compat.py:87-97 | Lines put between two newlines are read back as they were |
| CompatMatrix.BodyIsPlain | scripts/ib_gateway_compat.py:87-87 | What is read from between the markers contains no end marker and no line break |
| CompatMatrix.UpsertLinesLoop | scripts/ib_gateway_compat.py:88-96 | The search loop with its else branch equals the specification |

## Left out

- FillDedup.Suffix: the text behind the last dot is read by an arbitrary partial function from strings to integers instead of Python's int().
- StreamSafety.EveryRunKeepsLinesAndRefs: says nothing about the futures of coroutines that wait for data on a stream; when a snapshot ends is left to the environment.
- StreamEntryPoints.FailWithCallbacks: a callback may subscribe to trades and depth; other calls into the transport from inside a callback are not modelled.
- StreamTransport.IbStreamTransport.Subscribe: the bus subscription and the dispatch closures are not modelled; a handle stands for its registry entry.
- KrakenOrders.Step: admits any number of orders in a call; the limits of 2 to 15 and 1 to 50, the readiness and argument checks and the rate limiter behind the units are not modelled.
- KrakenOrders.EveryRunIsCappedAndCharged: overlapping calls and lost replies are excluded, since the code counts an order only when its reply arrives.
- ErrorRouter.OnError: looks into a message only for the two phrases the code searches; the advanced reject text and the wording of exceptions are not modelled.
- LinkedOrders.SettleLegs: how a leg ends is an input; awaiting the legs' first status is not modelled.
- Reconnect.ConnectLoop: how a try ends is an input; telling retryable errors from others is not modelled.
- PnlFeeds.PnlTransport.DropPnlFeed: the snapshot futures of a feed, its latest value and its callbacks are not modelled.
- CompatMatrix.Lines: only the newline breaks lines, as in a text read with universal newlines; the other Unicode line separators are not modelled, and blanks are space, tab, newline and carriage return.
- DepthBook.Row: prices and sizes are reals; decimal conversion is not modelled.
- FillDedup.Fees: the fees' memory is stated over values; the loop that keeps it in place is the one of FillTable.Remember.
- The warning at 80 percent of the lines, logging, and publishing of connection states.
- HTTP, WebSocket and ib_async calls, which appear as answers that may raise.
- The rate-limit pools and the pacer, whose limiter is in another package.
- Signing, credentials and template expansion.
- The generic REST and WebSocket connector loops and gateway start and stop.
- Coinbase, and the schemas, converters and decoders of both exchanges: field copying and table lookup.
- Order translation and order options, validation of connection specs, order handles.
- The command-line part of the compatibility script.
