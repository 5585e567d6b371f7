# Query node request handlers

This project models the request handlers of a Milvus query node
(`internal/querynodev2/handlers.go`):

- **Growing segments.** A channel-watch request produces a batch of growing
  segments for the shard delegator.
- **Delta logs and indexes.** A load-segments request runs the delta-log
  loader and the index loader over its items.
- **Query, streaming query and search.** Each pipeline finds the delegator for
  a channel and calls it. A query reduces the partial results, and a streaming
  query lets the delegator stream them. A search first optimizes its plan
  through the query hook and then reduces the partial results. Each pipeline
  records its metrics and the cancellation of its child context, and a search
  also records the node's liveness token.
- **Channel statistics.** A shard leader answers from its own segment
  statistics. Any other node asks the delegator and reduces the partial
  statistics responses through a field registry.

Modules:

- `Common` holds errors, statuses and int64 wrap-around.
- `Decimal` holds `strconv.ParseInt` and `strconv.FormatInt` in base 10.
- `Messages` holds the request and response records and the collaborators.
- `SegmentLoad` covers the growing-segment batch and the loader positions.
- `Statistics` covers the row-count sum and the statistics reduction.
- `Handlers` holds the `QueryNode` class, with its pipelines and their event
  log.

**Collaborators** are values whose fields are total functions. Every property
therefore holds for every behaviour of:

- the delegator;
- the loaders;
- the scheduler;
- the query hook;
- the plan codec;
- the reducers;
- the statistics source.

A loader's outcome depends on the item's position in the request, so two
equal items may load differently.

**The event log.** A `QueryNode` keeps a log, `events`, of what its requests
do, in order:

- metric updates;
- context opening and cancellation;
- taking and releasing the liveness token;
- collaborator calls.

Each pipeline method appends exactly the events of a specification function
of its exit (`QueryEvents`, `StreamEvents`, `SearchEvents`). The lemmas about
those functions state the metric, ordering and cleanup properties.

## Model

| member | source | states |
|---|---|---|
| SegmentLoad.LoadGrowingSegments | internal/querynodev2/handlers.go:46-74 | The batch handed over is the growing batch of the request. The ghost call trace holds exactly one LoadGrowing call, with that batch and the request's version, and its error is returned unchanged. |
| SegmentLoad.CollectChannel | internal/querynodev2/handlers.go:50-71 | The batch collected so far is extended by exactly the load infos of this channel's eligible IDs, in order, and by nothing else. |
| SegmentLoad.EligibleIds | internal/querynodev2/handlers.go:52-57 | Every eligible ID is one of the request's unflushed IDs, is listed in its segment infos, and has at least one binlog. |
| SegmentLoad.CollectIsFilterMap | internal/querynodev2/handlers.go:52-70 | The batch has one entry per eligible unflushed ID, in order. Each entry copies the listed segment's fields, with the info's own ID. |
| SegmentLoad.EligibleIdsOccurrences | internal/querynodev2/handlers.go:49-71 | There is no deduplication. An eligible ID contributes as often as it is listed, and a missing or binlog-less one never contributes. |
| SegmentLoad.GrowingBatchContents | internal/querynodev2/handlers.go:46-74 | States the growing batch entry by entry, with the occurrence count of every ID. |
| SegmentLoad.NothingEligibleEmptyBatch | internal/querynodev2/handlers.go:53-69 | When no unflushed segment is listed with a binlog, the batch is empty. |
| SegmentLoad.SealedPositionsSpec | internal/querynodev2/handlers.go:83-87 | The delta-log loader runs on exactly the items whose segment is sealed here, each once, in request order. |
| SegmentLoad.LocalPositionsSpec | internal/querynodev2/handlers.go:116-127 | The index loader may run on exactly the items whose segment is sealed and local, each once, in request order. |
| SegmentLoad.LocalPositionsPrefix | internal/querynodev2/handlers.go:116-134 | The loadable items among the first i are a prefix of all the loadable items. This is why an index load that stops early has attempted a prefix. |
| Handlers.FirstErrorSpec | internal/querynodev2/handlers.go:89-104 | The kept error is none exactly when every load succeeded. Otherwise it is the outcome of a load that only successes precede, so the first failure is kept. |
| Handlers.StatusOf | internal/querynodev2/handlers.go:99-104 | The status is a success exactly when there is no error. |
| Handlers.QueryNode.LoadDeltaLogs | internal/querynodev2/handlers.go:77-104 | The attempted items are exactly the sealed ones, in order, and a failure does not stop the loop. The status carries the first failure, or is a success. |
| Handlers.QueryNode.LoadIndex | internal/querynodev2/handlers.go:107-137 | The attempted items are a prefix of the sealed local ones, and every attempted item before the last succeeded, so the loop stops at the first failure. A failure status carries the last attempted item's error. A success means every loadable item was attempted. |
| Handlers.QueryEventsMembers | internal/querynodev2/handlers.go:150-213 | What a query records: total count, context opened, its pipeline steps, context cancelled, and a failure count only on a delegator or reducer error. |
| Handlers.QueryMetrics | internal/querynodev2/handlers.go:150-213 | A query is always counted. Success and latency are recorded exactly when it reduced. A failure is counted exactly on a delegator or reducer error, never on a channel or collection lookup error, whose err is a fresh variable. Nothing is counted under the search label. |
| Handlers.QueryContextAndOrder | internal/querynodev2/handlers.go:162-202 | The child context is opened second and cancelled after it. The delegator is called exactly when the channel is found, and the reducer only after a successful delegator call and collection lookup. |
| Handlers.QueryNode.QueryChannel | internal/querynodev2/handlers.go:140-214 | The log grows by QueryEvents of the exit. The result is ChannelNotFound, the delegator's error, CollectionNotFound, or the reducer's outcome, and each is tied to its exit. |
| Handlers.StreamMetrics | internal/querynodev2/handlers.go:216-263 | A streamed query is counted, and counted as failed exactly when the stream failed. A success is never counted. On every exit the context is opened and later cancelled, and the delegator is called exactly when it is found. |
| Handlers.QueryNode.QueryChannelStream | internal/querynodev2/handlers.go:216-264 | The log grows by StreamEvents of the exit. A missing channel gives ChannelNotFound, and otherwise the delegator's stream error is returned. |
| Handlers.QueryNode.QueryStreamSegments | internal/querynodev2/handlers.go:266-286 | A missing collection gives CollectionNotFound and no task. Otherwise the task is submitted once, and waited on exactly when the submission succeeded. Either error is returned as it is. |
| Handlers.SealedSegmentCountAppend | internal/querynodev2/handlers.go:318-322 | The sealed-segment estimate sums the segments of every snapshot item, additively over the snapshot. |
| Handlers.RetunedUnchanged | internal/querynodev2/handlers.go:325-342 | Only top-K and search parameters are written back. A hook that returns the parameters as it got them leaves the plan as it was. |
| Handlers.OptimizeRejects | internal/querynodev2/handlers.go:288-352 | With a hook installed, a request is rejected exactly when its plan is nil, does not unmarshal, or is a vector search on which the hook fails or whose plan fails to marshal. Only a nil plan keeps the request in the reply. The error is ServiceUnavailable exactly when the hook failed, and ParameterInvalid otherwise. |
| Handlers.OptimizeKeepsOrRetunes | internal/querynodev2/handlers.go:288-352 | Without a hook, or for a plan that is not a vector search, nothing changes. A new plan is the marshalled plan carrying the hook's top-K and search parameters, with output fields, predicates and metric type unchanged. |
| Handlers.QueryNode.OptimizeSearchParams | internal/querynodev2/handlers.go:288-352 | The request's plan bytes are replaced exactly when a new plan was marshalled. A rejection returns the error with the request or nil and leaves the request untouched. |
| Handlers.SearchEventsMembers | internal/querynodev2/handlers.go:362-429 | What a search records. An unhealthy node records nothing. Otherwise the search records token taken, count, context opened, pipeline steps, context cancelled, a failure count when err is set, and token released. |
| Handlers.SearchCounters | internal/querynodev2/handlers.go:362-429 | A search is counted exactly when the node is healthy. It is counted as a success exactly when reduced, and as a failure exactly on an optimizer, delegator or reducer error. A missing channel counts as neither. |
| Handlers.SearchObservations | internal/querynodev2/handlers.go:422-427 | Latency, nq and top-K are observed for a successful search and for no other. |
| Handlers.SearchLifetime | internal/querynodev2/handlers.go:362-381 | A search that takes the liveness token releases it as its very last step. Every context it opens it cancels afterwards. |
| Handlers.SearchCalls | internal/querynodev2/handlers.go:392-415 | The delegator is searched exactly when optimization succeeded, and the reducer runs exactly when the delegator answered. |
| Handlers.SearchOrder | internal/querynodev2/handlers.go:392-415 | On every exit that reaches them, the steps run in the order optimize, search, reduce. |
| Handlers.QueryNode.SearchChannel | internal/querynodev2/handlers.go:354-430 | The log grows by SearchEvents of the exit. An unhealthy node gives ServiceNotReady and a missing channel gives ChannelNotFound. Otherwise the optimizer, delegator and reducer outcomes decide the exit and the result, and the optimized request is what is searched. |
| Handlers.QueryNode.SearchOnDelegator | internal/querynodev2/handlers.go:391-429 | The pipeline on a found delegator: the steps recorded are SearchSteps of the exit. The function-scope err is set exactly on the failing exits. |
| Common.WrapAdd | internal/querynodev2/handlers.go:489-491 | Wrapping the int64 sum after every addition gives the exact sum wrapped once. |
| Common.Wrap64Congruent | internal/querynodev2/handlers.go:490 | The wrapped value differs from the exact one by a multiple of 2^64, and equals it when it fits an int64. |
| Statistics.SegmentStatsResponse | internal/querynodev2/handlers.go:487-501 | The response is always a success with the single field row_count. Its text is the exact total of the segments' row counts, wrapped to int64. |
| Decimal.ScanUint | internal/querynodev2/handlers.go:509 | A successful digit scan never exceeds 2^64 - 1. |
| Decimal.ParseInt | internal/querynodev2/handlers.go:509 | Every parse error names ParseInt and the whole input, and the empty text is an error. |
| Decimal.FormatInt | internal/querynodev2/handlers.go:494 | The printed text is never empty and starts with '-' exactly for negative values. |
| Decimal.ParseFormat | internal/querynodev2/handlers.go:494 | Round trip: the row_count text FormatInt prints parses back to the same int64 with ParseInt. |
| Decimal.FormatIntInjective | internal/querynodev2/handlers.go:530-533 | Distinct int64 values print as distinct texts. |
| Statistics.MergeOneMergeable | internal/querynodev2/handlers.go:508-515 | The row_count merge function adds a parsable value to the accumulator with int64 wrap-around. |
| Statistics.MergeAllMergeable | internal/querynodev2/handlers.go:518-528 | When every pair has the row_count key and a parsable value, the fold succeeds with the exact total of the values, wrapped to int64. |
| Statistics.MergeStopsAt | internal/querynodev2/handlers.go:518-527 | The fold fails with the error of the first pair that has an unknown key or an unparsable value. |
| Statistics.MergeAborts | internal/querynodev2/handlers.go:518-527 | Once the pairs of the first responses fail to merge, the whole reduction fails with that same error. |
| Statistics.MergeResponseStats | internal/querynodev2/handlers.go:519-527 | Starting from the accumulator so far, one response's pairs are folded in order through the registry, and the fold stops at the first unknown key or failing merge. |
| Statistics.ReduceStatisticResponse | internal/querynodev2/handlers.go:503-540 | The method returns exactly the reduction of all partial responses' pairs: the merged row_count on success, or the first error with no response. |
| Statistics.ReducedSucceeds | internal/querynodev2/handlers.go:503-540 | The reduction succeeds exactly when every pair has a registered key and a parsable value. It then reports a success status and the exact sum of the values wrapped to int64, whatever the partial statuses were. |
| Statistics.ReducedFails | internal/querynodev2/handlers.go:518-527 | Otherwise it fails with the error of the first offending pair. |
| Statistics.ReduceSingleRowCount | internal/querynodev2/handlers.go:487-540 | Reducing the one response that segmentStatsResponse builds reproduces its statistics, whatever its status. |
| Statistics.ReduceThreeAndFour | internal/querynodev2/handlers.go:503-540 | Partial row counts "3" and "4" reduce to "7". |
| Statistics.ReduceUnknownField | internal/querynodev2/handlers.go:520-523 | Reducing the single response whose one pair is `unknown_field: "x"` fails with UnknownStatisticField("unknown_field"). The general rule, that the first unmergeable pair decides the error, is ReducedFails. |
| Handlers.QueryNode.GetChannelStatistics | internal/querynodev2/handlers.go:432-485 | The corrected handler. A leader sums its segments' statistics, or returns the read error, and releases the pinned segments. Otherwise the Go error is always nil: a missing channel, a delegator error and a failed reduction each give a failure-status response, and a successful reduction gives the reduced response. |
| Handlers.QueryNode.GetChannelStatisticsAsWritten | internal/querynodev2/handlers.go:432-485 | The handler as written. It dereferences nil exactly when a non-leader finds the delegator, gets its statistics and the reduction fails. Every other path is as in the corrected handler. |

## Left out

- Logging, tracing, time recorders and the latency values are not modelled. A latency observation is an event without a value.
- The metric labels for the node ID and the leader role are not modelled. Events carry only the query or search label.
- The protobuf encoding is not modelled. Unmarshal and Marshal are the `codec` collaborator, and Map2KeyValuePair is a sequence of pairs.
- The internals of the collaborators are not part of this model: the delegator, segment manager, loader, scheduler, query hook, reducers and statistics source. Each is an arbitrary total function of its arguments.
- The collaborators are deterministic in their arguments. A loader's outcome is indexed by the item's position so that repeated items may differ.
- Concurrency and real context cancellation are not modelled. Cancellation is recorded as an event in defer order.
- Segment pinning is not modelled. The unpinned segments are returned as an output.
- Nil messages inside request lists are not modelled.
- The node's health check is a boolean field.
- The query hook receives its parameters as a record rather than a `map[string]any`. The type assertions on the values it writes back, which would panic on a wrong type, are not modelled.
- The nil queryInfo of a vector plan without query info is not modelled. At handlers.go:339 it would be dereferenced.
- The segment estimate (`sealedNum * channelNum`) is an unbounded integer. Go's `int` overflow is not modelled.
- Handlers.QueryNode.LoadDeltaLogs: requires every sealed segment it meets to be local. The source's unchecked type assertion would panic otherwise.
- Go map iteration order, in stringifying the merged statistics, is not modelled. There is a single registered field, so the order cannot matter.
- Handlers.QueryMetrics, Handlers.StreamMetrics, Handlers.SearchCounters, Handlers.SearchObservations: state which counters move as membership in the event log, not as exact counts. Exact counts follow from the literal event lists but are not stated.
- Handlers.QueryNode.SearchOnDelegator, SegmentLoad.CollectChannel and Statistics.MergeResponseStats are parts of searchChannel, loadGrowingSegments and reduceStatisticResponse split out as methods of their own. They are not functions of the source.
- The fmt.Errorf text of the unknown-field error and merr's error codes are not modelled. Errors are constructors carrying their arguments.

## Findings

| source | as written | input that shows it | evidently intended | confidence | as-written member | corrected member |
|---|---|---|---|---|---|---|
| internal/querynodev2/handlers.go:477-481 | `resp, err = reduceStatisticResponse(results)` overwrites `resp` with the nil the reducer returns on error. The next line assigns `resp.Status`, which dereferences nil. | A non-leader request whose delegator returns one partial response with the pair `unknown_field: "x"` (Statistics.ReduceUnknownField shows that this reduction fails). | Report the reduction error in the status of a response, as the channel and delegator failures just above do. | not executed | Handlers.QueryNode.GetChannelStatisticsAsWritten | Handlers.QueryNode.GetChannelStatistics |
