# http-tap, modelled and proved in Dafny

http-tap puts a reverse proxy between an application and its HTTP server. The proxy records one
event per request, a daemon fans the events out to viewers, and a terminal UI and a browser page
show, filter, aggregate, export and replay them. This project models that logic in Dafny and
proves what can be said about it over every interleaving, every run of messages and every input.

`dafny verify dfyconfig.toml` checks everything.

## How the model is laid out

* **The broker.** `BoundedQueue` is one buffered Go channel with non-blocking sends, together with
  the history of every attempt. `BrokerSteps` is the broker as a concurrent step system: taking and
  releasing the lock, each single send of `Publish`, deleting, closing and receiving are separate
  steps of any number of goroutines, and a send on a closed channel or a second close sets
  `panicked`. `Broker` is the same code as a class that updates its map and channels in place; each
  of its methods is proved against the functions on `View` that `BrokerSteps` proves uninterrupted
  calls to compute. `BrokerIsolation` and `BrokerOrder` compare subscribers with one another.
* **The pipeline.** `Pipeline` adds the emitters, the proxy's 256-slot channel, the one forwarder
  goroutine and the Watch and SSE handlers. `PipelineInvariants` holds what every step keeps, one
  aspect of the state at a time, `PipelineTheorems` what follows for whole runs, and
  `PipelineDelivery` what the handlers send to their viewers.
* **The data paths.** `Headers`, `HeaderOrder`, `Capture` and `ReverseProxy` model header forwarding
  and flattening, body capture, `ServeHTTP` and `Replay`.
* **The statistics.** `Filtering`, `Aggregation`, `Analytics`, `Percentiles`, `Rounding` and `WebStats` model the
  filters, the export's aggregator, the analytics view's, the browser's, and how their figures
  compare.
* **The TUI.** `Tui` is `Update` as a function on the model value. `TuiInvariants` holds what every
  message keeps; `TuiRuns`, `TuiKeys`, `TuiAnalytics`, `TuiSelection` and `TuiReplay` what holds over runs.
* `Subsequences`, `Enumerations`, `Permutations`, `Maps`, `Sorting` and `Text` are shared vocabulary.

Go ranges over a map in an arbitrary order, so every such loop picks its next key arbitrarily and
every result holds for all orders. `sort.Slice` is not stable, so a sort by duration or by an
analytics column may answer with any ordered permutation; the sort's answer is an input of `Update`.

## Assumptions

* Channel buffers have room for at least one event, as the daemon's two capacities of 256 do. An
  unbuffered channel hands over to a waiting receiver, which `BoundedQueue` with capacity 0 does not.
* Header maps from `net/http` have canonical keys. `CopyOrderMattersIff` says for which other maps
  `copyHeaders` does not depend on the iteration order.
* Durations of recorded events are not negative where the rounding lemmas say so.
* The gzip library is a parameter, so are the clock, the UUID library (by way of `Stamp`) and how a
  body is split into reads.
* Letters are folded to lower case as ASCII letters are.

## What the code does that one might not expect

* `close(rp.events)` runs when the server has stopped accepting, not when the last handler is done.
  `PanicsIffSentAfterClose` says exactly in which runs a send panics, and `CloseRaces` is one.
* With two publishers at once two viewers can disagree on the order of two events
  (`ConcurrentPublishersMayReorder`). The daemon has one forwarder, so its viewers cannot
  (`OnePublisherKeepsOrder`).
* Of several X-Forwarded-For lines only the first survives (`ForwardedChainIsComplete`).
* `/` empties the query but does not rebuild the rows, so the list can be incomplete until the next
  rebuild (`SlashStaysCompleteIff` says when it is), and an export then differs from the screen
  (`ExportMatchesScreenIff`).
* The exported average can exceed the exported maximum (`AverageAgainstMaximum` says when).
* In duration mode a replayed event opens the inspector on the fastest row rather than on itself
  (`ArrivalOpensFastest`), and a filtered-out one opens it on another row (`ArrivalOpensInspector`).
* If a replayed event arrives before the replay's result, no navigation happens at all; until
  another result comes, that is the only way to miss it (`ReplayNavigatesUnlessLate`).
* In duration mode a slower call arriving takes the selected place (`SelectionByDuration`).

## Model

| member | source | states |
|---|---|---|
| BoundedQueue.RunKeepsValid | broker/broker.go:54-60 | Over any sequence of sends and receives a buffer never exceeds its capacity, a send failed exactly when it met a full buffer, and the accepted events are those received followed by those waiting. |
| BoundedQueue.OffersAreConserved | broker/broker.go:54-60 | Offered events are, as a multiset, those received, those waiting and those dropped. |
| BoundedQueue.DeliveryKeepsOrder | broker/broker.go:54-60 | Received then waiting events are a subsequence of the offered ones. |
| BoundedQueue.LosslessIffNeverFull | broker/broker.go:54-60 | Nothing is lost if and only if every send met fewer waiting events than the capacity. |
| BoundedQueue.FirstOffersSurvive | broker/broker.go:34-34 | The first events after subscribing, as many as the buffer holds, are never lost, whatever the receiver does. |
| BrokerSteps.StepKeepsInv | broker/broker.go:27-61 | Every single step of any goroutine keeps the lock discipline, the match between map, ids and closed channels, and the soundness of every buffer. |
| BrokerSteps.NoRunPanics | broker/broker.go:27-61 | In no interleaving of publishers, subscribers, unsubscribers and receivers is there a send on a closed channel or a second close. |
| BrokerSteps.IdsAreNeverReused | broker/broker.go:31-45 | Over any run ids only grow, an issued channel keeps its history and stays closed once closed, and an id that left the map never returns. |
| BrokerSteps.IssuedIdsAreFresh | broker/broker.go:31-32 | The ids a run's Subscribe calls are given increase strictly and were never in use before the run. |
| BrokerSteps.RunIsLocal | broker/broker.go:50-61 | The broker refines one independent drop-newest queue per subscriber: in every interleaving a subscriber's queue is the result of the sends and receives on it alone. |
| BrokerIsolation.ReadsOfOthersDoNotMatter | broker/broker.go:48-61 | Removing every receive of the other subscribers from any run leaves a run that is still possible and ends with the same channel for this one: offered, received, waiting and dropped events alike. |
| BrokerIsolation.SlownessDoesNotSpread | broker/broker.go:48-61 | Two runs that differ only in when, how often and whether other subscribers receive leave a subscriber with the same channel. |
| BrokerSteps.SubscriberGuarantees | broker/broker.go:48-61 | In every reachable state and per subscriber: conservation, a drop only with exactly bufSize events pending, lossless if and only if the backlog was always smaller, and the first bufSize offers survive. |
| BrokerSteps.SubscribeIsAtomic | broker/broker.go:27-46 | The steps of an uninterrupted Subscribe add one fresh id with an empty buffer and release the lock. |
| BrokerSteps.UnsubscribeIsAtomicAndIdempotent | broker/broker.go:37-45 | The steps of unsubscribe remove the id and close its channel; calling it again changes nothing at all. |
| BrokerSteps.PublishIsAtomic | broker/broker.go:50-61 | The steps of an uninterrupted Publish never block and offer the event once to every subscriber, with the same outcome for every map order. |
| BrokerOrder.OnePublisherKeepsOrder | broker/broker.go:50-61 | In every run with at most one Publish under way at a time, every subscriber is offered a contiguous piece of one common sequence of events. |
| BrokerOrder.ConcurrentPublishersMayReorder | broker/broker.go:50-61 | Two publishers sharing the read lock can make two subscribers see two events in opposite orders. |
| Broker.Broker.constructor | broker/broker.go:18-23 | A new broker has no subscribers and starts ids at 0. |
| Broker.Broker.Subscribe | broker/broker.go:27-46 | The in-place code returns a fresh channel under the next id and otherwise leaves the broker's contents as they were. |
| Broker.Broker.Unsubscribe | broker/broker.go:37-45 | The closure removes and closes when the id is present and changes nothing when it is not; the channel is closed either way, and never closed twice. |
| Broker.Broker.Publish | broker/broker.go:50-61 | The loop over the map, in any order, pushes the event onto exactly the subscribers' channels that have room. |
| Broker.Broker.SubscriberCount | broker/broker.go:64-69 | Returns the number of ids in the map. |
| PipelineInvariants.HandleKeepsOrder | server/server.go:58-78 | Every handler step keeps one handler at most inside the write lock, and handlers and ids in one-to-one correspondence with the map's contents. |
| PipelineInvariants.ForwardKeepsTracked | broker/broker.go:50-61 | Every forwarder step, single sends included, keeps a subscriber's offers equal to the slice of published events it was subscribed for. |
| PipelineInvariants.RunKeepsInv | cmd/http-tapd/main.go:103-107 | Every run of emitters, forwarder and handlers keeps all of the pipeline's invariants. |
| PipelineDelivery.SentIsReceived | server/server.go:63-77 | In every reachable state a Watch or SSE handler that waits has sent exactly what its channel gave it, one that is sending has received that and the event in hand, and one on its way out lacks at most the event whose send failed. |
| PipelineDelivery.ViewersSeeEmissionsInOrder | cmd/http-tapd/main.go:103-107 | In every run what a handler sent its viewer is a subsequence of the published events, hence in emission order, each emission at most once, and in the same order for all viewers, across both lossy stages. |
| PipelineTheorems.SubscribersSeeEmissionsInOrder | broker/broker.go:48-61 | The same of what a subscriber's channel gave and still holds. |
| PipelineTheorems.PipelineConserves | proxy/reverse_proxy.go:242-247 | In every reachable state emitted events are those dropped at the proxy's channel, queued there, held by the forwarder or published; and what was published while a subscriber was in the map is what it received, has buffered or lost. |
| PipelineDelivery.LosslessEndToEnd | cmd/http-tapd/main.go:103-107 | If neither channel was ever found full, a live viewer was sent exactly the emissions since it subscribed, up to the one in hand and those still waiting. |
| PipelineDelivery.EndedStreamsStayEnded | server/server.go:65-75 | After a failed send, a cancelled request or a closed channel the viewer is sent nothing more, in whatever run. |
| PipelineDelivery.EmittedIsSent | proxy/reverse_proxy.go:242-247 | What counts as emitted is the events of the emitters' sends, in the order of the sends. |
| PipelineDelivery.EmittersKeepTheirEvent | proxy/reverse_proxy.go:242-247 | An emitter sends the event it began with, whatever happens in between. |
| PipelineDelivery.ForwarderDrains | cmd/http-tapd/main.go:103-107 | Once the forwarder has stopped, every emission was published or had been dropped at the proxy's full channel; none is left behind. |
| PipelineTheorems.SubscriberCountIsLiveViewers | broker/broker.go:63-69 | Whenever the count can be read, it is the number of Watch and SSE handlers between Subscribe and their deferred unsubscribe, and the map holds exactly their ids. |
| PipelineTheorems.ExitsLeaveNothing | server/server.go:59-77 | Whichever way a handler ended, its id is out of the map and its channel is closed. |
| PipelineTheorems.HandlersNeverSeeClosed | web/web.go:143-146 | The branch for a closed channel is unreachable: only the handler's own unsubscribe closes its channel. |
| PipelineTheorems.SafeIffOrderly | proxy/reverse_proxy.go:92-96 | No emission of a run panics, or is about to, if and only if the events channel is closed with no emission in flight and none begins later. |
| PipelineTheorems.PanicsIffSentAfterClose | proxy/reverse_proxy.go:92-96 | A send on the proxy's events channel has panicked in a run if and only if some emitter's send came after the channel was closed; no send of the broker ever does. |
| PipelineTheorems.CloseRaces | proxy/reverse_proxy.go:95-95 | A run in which an emission in flight panics on the closed channel. |
| Headers.AddAll | proxy/reverse_proxy.go:262-264 | Adding a key's values one by one appends them all, in order, under the canonical key. |
| Headers.CopyHeaders | proxy/reverse_proxy.go:260-266 | The in-place double loop appends, for canonical source keys, every key's values in order, whatever the iteration order. |
| Headers.CopyOrderDoesNotMatter | proxy/reverse_proxy.go:260-266 | For canonical source keys every order of iteration gives the same key-by-key concatenation. |
| HeaderOrder.CopyOrderMattersIff | proxy/reverse_proxy.go:260-266 | For any headers at all the outcome is the same in every order of iteration if and only if the values of any two spellings of one name give the same list joined either way. |
| Headers.RemoveHopByHop | proxy/reverse_proxy.go:268-272 | The loop of deletions removes each of the eight listed names. |
| Headers.WithoutKeysIsDifference | proxy/reverse_proxy.go:268-272 | Deleting canonical names one after another is removing the set of them, and nothing else. |
| Headers.ForwardedKeyByKey | proxy/reverse_proxy.go:177-186 | Upstream gets no name listed in section 6.1 of RFC 7230, every other key with its values in order, and only X-Forwarded-For changed. |
| Headers.HopByHopNamesStay | proxy/reverse_proxy.go:21-30 | None of the eight names goes upstream, whatever the client sent under it. |
| Headers.CanonicalIff | proxy/reverse_proxy.go:260-272 | Header names that are tokens are one key exactly when they are equal but for the case of letters. |
| Headers.ForwardedChainIsComplete | proxy/reverse_proxy.go:180-186 | The forwarded chain of addresses is complete if and only if the client sent no X-Forwarded-For line or a single one that is not empty. |
| Headers.FlattenHeaders | server/server.go:110-119 | The loop maps every key to its values joined by a comma and a space. |
| Headers.UnflattenHeaders | server/server.go:122-131 | For every order of iteration each key is set, canonically, to one of the values spelled that way. |
| Headers.UnflattenedShape | web/web.go:209-212 | Headers rebuilt from a flat map have canonical keys with exactly one value each. |
| Headers.FlattenUndoesUnflatten | server/server.go:108-131 | Flatten after unflatten is the identity on maps with canonical keys, and there unflattening has one outcome. |
| Headers.UnflattenFlattenIsIdempotent | server/server.go:108-131 | Unflatten after flatten joins each key's values once; doing it again changes nothing, for any iteration orders. |
| Capture.CaptureReader.constructor | proxy/body.go:19-21 | A new reader has captured nothing of the stream from where it stands. |
| Capture.CaptureReader.Read | proxy/body.go:23-30 | Each read passes the underlying result on unchanged and keeps the buffer equal to the first maxSize bytes that passed through. |
| Capture.StreamToClient | proxy/reverse_proxy.go:213-223 | However the upstream splits its body, a final read with data and an error included, the client is offered exactly its bytes and the capture is their first 65536. |
| Capture.CopyToClient | proxy/reverse_proxy.go:224-226 | The copy for a client that cannot flush offers what it read and captures the first 65536 bytes of that; it is the whole body unless a write fails. |
| Capture.ReadLimited | proxy/reverse_proxy.go:137-140 | Replay's limited read yields the first 65536 bytes, and fails exactly when the body breaks off before the limit, or at it together with the last bytes. |
| Capture.CaptureAgreesWithReplay | proxy/reverse_proxy.go:137-137 | One body proxied and replayed, split differently each time: the capture is what the replay reads, always so when the body has no error, and if and only if the limited read succeeds otherwise. |
| Capture.DecompressionUndoesCompression | proxy/body.go:37-53 | A compressed body captured whole is shown as it was before compression, whatever its size then; a body without the magic header, or one the library rejects, is shown as it is. |
| ReverseProxy.ReverseProxy.RequestHeaders | proxy/reverse_proxy.go:177-186 | The three in-place header passes yield the specified upstream headers. |
| ReverseProxy.ReverseProxy.ResponseHeaders | proxy/reverse_proxy.go:206-207 | The client gets the upstream's headers without the listed names. |
| ReverseProxy.ReverseProxy.CaptureRequest | proxy/reverse_proxy.go:167-172 | However much of the request body the transport has read when the event is recorded, and in whatever pieces, the capture is the first 65536 bytes of it. |
| ReverseProxy.ReverseProxy.Exchange | proxy/reverse_proxy.go:188-239 | Answer and event agree with the round trip and with what passed through both captures, for flushing and for copying clients. |
| ReverseProxy.ReverseProxy.ServeHTTP | proxy/reverse_proxy.go:163-240 | A request that cannot be built gets 502 and offers no event. Any other goes upstream where GoesTo says, and offers exactly one event. Its method, path, headers and body are the client's own, its status, error text and body those the client was answered with, and the client's headers are its response headers without the listed names. The client gets the whole upstream body unless a copying client fails a write. |
| ReverseProxy.TargetIsRight | proxy/reverse_proxy.go:249-258 | The path sent is the upstream's and the request's joined by exactly one slash with nothing else changed, and a query of the request replaces the upstream's. |
| ReverseProxy.QueryGoesAlong | proxy/reverse_proxy.go:251-256 | A query added to a path is the query sent and leaves the path sent as it was; without one the upstream's query is kept. |
| ReverseProxy.ReverseProxy.Replay | proxy/reverse_proxy.go:111-161 | A success returns and offers one and the same event, with the method, path, headers and body that were sent and the status, headers and body that came back; a failure offers none; it succeeds exactly when the request can be built, the upstream answers and the limited read succeeds. |
| ReverseProxy.ServedEventTells | proxy/reverse_proxy.go:190-239 | The recorded event agrees with the client's request and with the client's answer, for refused and answered requests alike. |
| ReverseProxy.ServedEvent | proxy/reverse_proxy.go:189-200 | A recorded event carries an error text only together with status 502. |
| ReverseProxy.ViewersAreTold | server/server.go:92-106 | What a TUI is shown of a proxied request is the client's own request and the answer the client got, header lines of one name being joined. |
| ReverseProxy.HeadersReachFixpoint | server/server.go:80-131 | Headers flattened from an unflattened map unflatten to the same headers again, for any orders. |
| ReverseProxy.ReplayIsFixpoint | server/server.go:80-106 | Replaying what a successful replay recorded sends the same method, path, query (hence the same URL), headers and body, for any iteration orders. |
| Sorting.SortedSorts | tui/model.go:257-263 | The sort's answer is a permutation of the rows in descending order of the key, ties in any order. |
| Sorting.SortIntsSorts | tui/export.go:116-116 | Sorting durations yields an ascending permutation. |
| Sorting.AscendingIsUnique | tui/export.go:116-116 | Durations have only one ascending arrangement, so every correct sort gives the same one. |
| Filtering.MatchesQueryIff | tui/model.go:244-250 | A query finds an event exactly when it stands, in letters of either case, somewhere in the method, a blank and the path. |
| Filtering.RowsAreExact | tui/model.go:246-255 | The unsorted rows are exactly the indices of events passing query and error filter, increasing. |
| Filtering.CollectRows | tui/model.go:243-255 | The loop computes those rows. |
| Filtering.FilterSplits | tui/export.go:65-81 | Exported events and filtered-out events make up all that was captured. |
| Filtering.FilteredExportEvents | tui/export.go:65-81 | The export's own loop returns the events at exactly the rows the list's filter selects, in order, and with those left out makes up the whole. |
| Filtering.ClearingQueryKeepsRows | tui/model.go:288-291 | Every row under a query is a row under the empty query, no more often. |
| Aggregation.SameEndpointIff | tui/analytics.go:66-72 | Events share an endpoint exactly when they have the same method and the same path up to the question mark. |
| Aggregation.QueryIsIgnored | tui/analytics.go:66-72 | A query does not change an event's endpoint. |
| Aggregation.BlankKeyIff | tui/analytics.go:84-86 | Only an event with neither method nor path is skipped. |
| Aggregation.KeysFollowAppearance | tui/export.go:99-104 | Endpoints are listed in order of first appearance. |
| Aggregation.ErrorsAtMostCount | tui/export.go:105-110 | An endpoint has no more errors than events. |
| Aggregation.GroupIsAgg | tui/export.go:93-111 | After one pass the map's group of an endpoint holds its count, error count, duration sum and durations in order. |
| Aggregation.CollectGroups | tui/export.go:93-111 | The export's loop ends with the groups and the first-appearance order of the events that have a key. |
| Aggregation.KeyedCountsAddUp | tui/analytics.go:82-98 | Counts sum to the number of events whose key is not a lone blank, and no row has that key. |
| Aggregation.CountsAddUp | web/static/app.js:566-576 | Counts over all endpoints sum to the number of events. |
| Aggregation.BuildExportAnalyticsRows | tui/export.go:83-132 | One row per endpoint in first-appearance order. Its count, errors and total are the endpoint's, its average times its count is its total, its maximum is a greatest duration, and its p95 is a duration with more than 0.95(n-1) durations at most it and no more than that below it. |
| Analytics.CollectTallies | tui/analytics.go:80-98 | The analytics view's own loop, which keeps no durations and no order, ends with every endpoint's declared count, error count and duration sum. |
| Analytics.ListTallies | tui/analytics.go:100-110 | Every group becomes one row, once, in the map's arbitrary order. |
| Analytics.BuildAnalyticsRows | tui/analytics.go:74-111 | The view's aggregator yields, as a multiset, the row of each endpoint, whose average is the total over the count truncated toward zero. |
| Analytics.BothAggregators | tui/analytics.go:74-111 | Run on the same events, the two Go aggregators return the same multiset of endpoint, count, errors and total truncated to microseconds, one row per endpoint. |
| Percentiles.PercentileIsRank | tui/export.go:134-140 | For every p in [0,1] the percentile is a duration of the group between its least and greatest; more than (n-1)p durations are at most it, and at most (n-1)p are below it. |
| Percentiles.PercentileUnderRounding | tui/export.go:138-139 | Whatever value from 0 to n-1 the product is rounded to, the duration picked has the rank its index says and lies between the least and the greatest. |
| Rounding.TruncatedSum | tui/export.go:117-117 | Truncating a sum exceeds the sum of truncations by a carry of less than one microsecond per event. |
| Rounding.AverageAgainstMaximum | tui/export.go:117-120 | The exported average is below the maximum plus one microsecond; by the carry of TruncatedSum, it stays at most the maximum if and only if that carry is within the durations' shortfall from the maximum. |
| Rounding.ExportedAverageBound | tui/export.go:117-120 | The same bound in the row's milliseconds. |
| Rounding.AverageCanExceedMaximum | tui/export.go:118-120 | Two calls of 1999 ns show an average above the maximum. |
| WebStats.SplitHeadIsCut | web/static/app.js:204-208 | Splitting at question marks and taking the head is cutting at the first one, so both endpoint keys coincide. |
| WebStats.WebGroupIsExact | web/static/app.js:213-223 | The browser's map holds each endpoint's durations in order and its count of failures. |
| WebStats.CollectWebGroups | web/static/app.js:211-223 | The loop groups exactly the events whose key contains every text condition, endpoints in first-appearance order. |
| WebStats.BuildStats | web/static/app.js:210-233 | One row per shown endpoint with its count, errors and total, its average times its count being its total, unchanged by the sort before summing. |
| WebStats.ShownIff | web/static/app.js:214-215 | An endpoint is shown exactly when it holds every text condition, in letters of either case. |
| WebStats.BuildExportAnalytics | web/static/app.js:563-587 | The browser's rows say of their endpoints what the TUI's export rows say, of durations in microseconds. |
| WebStats.DaemonEventsMirror | web/web.go:88-102 | For daemon events the browser's samples have the TUI's keys and failures and the truncated durations. |
| WebStats.MirrorsByEndpoint | web/static/app.js:563-576 | Such samples group alike: same endpoints in the same order, same errors, durations truncated one by one. |
| WebStats.SortingCommutes | web/static/app.js:579-584 | Sorting truncated durations is truncating the sorted ones, so percentiles and maxima coincide. |
| WebStats.WebAgreesWithTui | web/static/app.js:563-587 | On the same daemon events TUI and browser rows of an endpoint agree on count, errors, percentile and maximum, and the TUI's total is larger by less than one microsecond per event. |
| WebStats.BothExports | web/static/app.js:563-587 | Run on the same daemon events, the TUI's export and the browser's return the same endpoints in the same order, but for the blank one, and rows that agree in this way. |
| Tui.RebuildDisplayRows | tui/model.go:242-266 | The loop and the sort compute the rows Update uses. |
| Tui.DrawnWindow | tui/model.go:464-473 | With the cursor in range the window lies inside the rows, has as many as fit, and shows the cursor's row. |
| TuiInvariants.RebuildIsFresh | tui/model.go:242-266 | A rebuild gives exactly the filtered rows: in order, or by descending duration. |
| TuiInvariants.RebuildKeepsCursor | tui/model.go:151-156 | Rebuilding possibly stale rows never shortens them, so a cursor that is not clamped stays in range. |
| TuiInvariants.ListedSurvivesClearing | tui/model.go:288-291 | Rows that are not rebuilt when the query is cleared stay sound for the empty query. |
| TuiInvariants.UpdateKeepsInv | tui/model.go:135-206 | Every message, in every view and mode, keeps rows sound and both cursors in range. |
| TuiKeys.TypingAppends | tui/model.go:366-374 | Over every run of typed keys the query grows by what is typed, in the order typed, and the rows are complete for it. |
| TuiKeys.TypingFinds | tui/model.go:366-374 | The rows after typing are exactly those of the events whose method and path hold the old query followed by all that was typed, in letters of either case, and that pass the error filter. |
| TuiKeys.ErasingUndoesTyping | tui/model.go:351-358 | Typing and then erasing as many characters restores the query, with complete rows. |
| TuiKeys.SlashThenTyping | tui/model.go:288-291 | After the slash key the query is exactly what is typed. |
| TuiKeys.LeavingSearch | tui/model.go:342-350 | Enter keeps the query; Esc takes it away, with complete rows and the cursor in its place. |
| TuiKeys.FilterKeysKeepPlace | tui/model.go:292-309 | Turning the error filter and clearing the query leave the cursor on its row number, or on the last row if there are fewer. |
| TuiKeys.DownRun | tui/model.go:310-317 | Any number of downward keys moves the cursor that far or to the last row, from which on the list follows, and changes nothing else. |
| TuiKeys.UpRun | tui/model.go:318-323 | Any number of upward keys moves it that far or to the first row; one that moves ends the following. |
| TuiKeys.PageDownRun | tui/model.go:324-330 | The same downwards for keys worth half a page each. |
| TuiKeys.PageUpRun | tui/model.go:331-335 | The same upwards, ending the following. |
| TuiKeys.ErrorKeyRun | tui/model.go:292-296 | Any number of presses turns the error filter on and off by turns, with complete rows. |
| TuiKeys.SortKeyRun | tui/model.go:377-388 | Any number of presses goes between time and duration by turns, complete, with the cursor on the first row; going by duration ends the following. |
| TuiKeys.ScrollDownRun | tui/model.go:714-722 | Any number of downward keys scrolls the inspector a line each until its last lines are in sight. |
| TuiKeys.ScrollUpRun | tui/model.go:723-727 | Any number of upward keys scrolls back a line each until the first is in sight. |
| TuiKeys.WriteThenFormat | tui/model.go:399-419 | After the write key, one key exports all events under the current query and filter as JSON, another as Markdown, any other nothing; each ends the wait. |
| TuiKeys.CopyAlerts | tui/model.go:702-713 | The copy keys raise an alert exactly when the inspected event has the body they copy, and the alert tells failure from success. |
| TuiKeys.QuitsIff | tui/model.go:268-281 | Ctrl-C quits everywhere but while a format is awaited, and the letter in the plain list only. |
| TuiKeys.FrameFollows | tui/model.go:137-141 | Over every run the TUI is connected once it was told so, and has the size of the last size message. |
| TuiKeys.ReceivesIff | tui/model.go:137-157 | Update asks for the next event after the connection and after every event, and at no other time. |
| TuiAnalytics.AnalyticsAlwaysSound | tui/analytics.go:74-168 | In every reachable state the analytics rows are, once each, those of the endpoints of the events held at some time, descending by the figure of the current sort mode, error rates compared as fractions. |
| TuiAnalytics.OpeningShowsAll | tui/model.go:297-302 | Opening the view shows the endpoints of all events there are, in that order, with the cursor on the first. |
| TuiAnalytics.SortKeyCycles | tui/analytics.go:37-49 | The sort key reaches every order within three presses and comes back with the fourth. |
| TuiAnalytics.SortKeyResorts | tui/analytics.go:161-165 | The sort key puts the same endpoints in the next order, with the cursor on the first. |
| TuiAnalytics.AnalyticsDownRun | tui/analytics.go:143-147 | Any number of downward keys moves the view's cursor that far or to the last row. |
| TuiAnalytics.AnalyticsUpRun | tui/analytics.go:148-152 | Any number of upward keys moves it that far or to the first row. |
| TuiAnalytics.AnalyticsPageRun | tui/analytics.go:153-160 | Page keys move it by half the visible rows each, as far as the rows go. |
| TuiRuns.RowsAlwaysSound | tui/model.go:242-266 | In every reachable state the rows, stale or not, are distinct valid indices of events that pass the current filters, in the order of the sort mode. |
| TuiRuns.RowsCompleteUnlessSlashed | tui/model.go:143-157 | In the list view they are also complete unless the slash key was pressed since the last rebuild. |
| TuiRuns.SlashStaysCompleteIff | tui/model.go:288-291 | After the slash key complete rows stay complete if and only if every event passing the error filter matched the old query. |
| TuiRuns.SlashCanHideRows | tui/model.go:288-291 | A run from the start after which the list view shows no row although its one event passes the empty query: the slash key, a query, Enter, an arrival that does not match, the slash key. |
| TuiRuns.CursorAlwaysSafe | tui/model.go:421-426 | In every reachable state both cursors are in range, cursorEvent never indexes out of bounds and finds an event if and only if there are rows, and both drawn windows contain their cursors. |
| TuiRuns.ExportMatchesScreen | tui/model.go:399-419 | An export from a complete list holds the displayed events, as a sequence in chronological mode and as a multiset in duration mode, and with those filtered out makes up all captured. |
| TuiRuns.ExportMatchesScreenIff | tui/model.go:399-419 | In every reachable state from which an export is written, it agrees with the screen in this way if and only if the list is complete. |
| TuiSelection.InspectedEventIsStable | tui/model.go:682-730 | While the inspector stays open, no sequence of messages without the awaited replay changes the inspected event. |
| TuiSelection.SelectionIsStable | tui/model.go:143-157 | In a complete chronological list that does not follow, any sequence of arrivals but the awaited one keeps the same event selected. |
| TuiSelection.FollowingStaysAtEnd | tui/model.go:151-156 | A list that follows has its last row selected after any arrivals but the awaited one, which in chronological mode is the newest event if it is shown. |
| TuiSelection.InspectingAndBack | tui/model.go:682-701 | From a complete chronological list that does not follow, Enter inspects the selected event; whatever happens while the inspector stays open, the awaited replay apart, the resend key resends that event and going back finds it selected. |
| TuiSelection.SelectionByDuration | tui/model.go:257-263 | In a complete list by duration that does not follow, any sequence of arrivals keeps the selected event if and only if none of them is shown and slower, ties aside. |
| TuiSelection.ArrivalsMoveDown | tui/model.go:257-263 | There a call that ties with no other moves down by exactly the number of slower arrivals that are shown. |
| TuiSelection.SelectionSurvivesEverySort | tui/model.go:257-263 | With ties included, however the sort arranges equal durations, an arrival leaves the selected row in place if and only if it is not shown and slower and no shown call ties with the selected one. |
| TuiReplay.AlertStep | tui/model.go:812-819 | Update starts a timer only together with a new alert, numbered one higher; otherwise it keeps or clears the alert on screen, and every key clears it. |
| TuiReplay.TimersClearOnlyTheirOwn | tui/model.go:179-183 | In every run pending timers have distinct numbers no higher than the newest alert's, the k-th alert has number k, and a timer clears its own alert and no other. |
| TuiReplay.AwaitingPersists | tui/model.go:159-165 | An awaited replay stays awaited over any messages but its event and another result. |
| TuiReplay.ArrivalOpensInspector | tui/model.go:145-150 | The awaited event opens the inspector, in chronological mode on that event if and only if it passes the filters. |
| TuiReplay.ArrivalOpensFastest | tui/model.go:145-150 | In duration mode the inspector opens on the arriving event however the sort arranges ties if and only if it is shown and all others shown are slower, and for some arrangement if and only if it is shown and none is faster. |
| TuiReplay.ReplayNavigatesOnce | tui/model.go:143-165 | A result processed before its event leads to the inspector when the event comes, whatever other messages come between, and nothing navigates again until another result. |
| TuiReplay.ResultNavigatesIff | tui/model.go:143-165 | After a successful result, over any messages until the next one, there is exactly one navigation if an event with its id arrives, and none otherwise. |
| TuiReplay.ReplayNavigatesUnlessLate | tui/model.go:143-165 | In a run from the start whose events have distinct ids, a replay whose event arrives at some time, and whose result no other successful result follows, navigates once if and only if its event did not arrive before its result. |
| TuiReplay.NavigationsAreAnsweredResults | tui/model.go:143-165 | Over every run from the start, with no condition on ids or on the order of results, the navigations number the successful results whose event arrives before the next successful result. |
| TuiReplay.LateResultNeverNavigates | tui/model.go:159-165 | The failing input: the event and then its result leave the list view waiting, and no later message without another result navigates. |

## Left out

- ReverseProxy.ReverseProxy.ServeHTTP: says what a flushing client is offered, not what it gets, as the code ignores its write errors; whether a request can be built is an input.
- ReverseProxy.ReverseProxy.Replay: whether a request can be built is an input, as is how the transport's round trip ends.
- ReverseProxy.ReplayIsFixpoint: does not say what `u.String()` and percent-encoding make of path and query, only that they get the same ones.
- Headers.ForwardedKeyByKey: the code does not drop headers nominated by a Connection header, which section 6.1 of RFC 7230 also asks for, so nothing of the kind is stated.
- Percentiles.PercentileIsRank: exact arithmetic; for the rounding of `float64(n-1) * 0.95` there is only PercentileUnderRounding.
- Rounding.ExportedAverageBound: exact arithmetic; floating-point rounding of milliseconds is not modelled.
- WebStats.WebAgreesWithTui: exact arithmetic; floating-point rounding of milliseconds is not modelled, and events with a blank key, which only the browser keeps, are excluded.
- TuiSelection.SelectionByDuration: ties, which the library's sort may leave in any order, are left to SelectionSurvivesEverySort.
- TuiReplay.ReplayNavigatesUnlessLate: unique event ids come from the UUID library and are an assumption here; NavigationsAreAnsweredResults does without.
- Watch and handleSSE are steps of `Pipeline` rather than methods; stream errors, JSON errors and flushing appear as the steps Delivered, SendFailed and Cancel.
- The source's one `Model` struct is grouped into list, analytics, alert and frame parts; the connection appears only as whether there is one.
- Go's int, int32 and int64 widths: ids, counters, statuses and durations are unbounded.
- Unicode case folding and UTF-8: queries and paths are sequences of characters, folded as ASCII.
- gzip, base64, JSON, UUIDs, time formatting and the export's period line: libraries and formatting.
- The checks of `handleReplay` on method, path and body size: one-branch facts.
- Sockets, gRPC, TLS, signals and shutdown timing: foreign calls.
- Drawing, the clipboard, the editor, temporary files and the browser's DOM code: input and output.
- The browser's own list filter, with its duration, status and error conditions, its selection by event index, and its column sort.
