/** The request and response records the handlers read and build (querypb,
    datapb, internalpb, planpb), and the collaborators they call. A
    collaborator is a value whose fields are total functions: each call's
    outcome is whatever that function gives for the call's arguments, so every
    fact proved below holds for every possible behaviour of the collaborator. */
module Messages {
  import opened Common

  type SegmentId = int
  type CollectionId = int
  type Channel = string
  type Path = string

  /** datapb.FieldBinlog: the log files of one field. */
  datatype FieldBinlog = FieldBinlog(fieldId: int, logPaths: seq<Path>)

  /** datapb.SegmentInfo as listed in a watch request's SegmentInfos map. */
  datatype SegmentInfo = SegmentInfo(
    id: SegmentId,
    collectionId: CollectionId,
    partitionId: int,
    insertChannel: Channel,
    numOfRows: Int64,
    binlogs: seq<FieldBinlog>,
    statslogs: seq<FieldBinlog>,
    deltalogs: seq<FieldBinlog>)

  /** querypb.SegmentLoadInfo: one segment to load. */
  datatype SegmentLoadInfo = SegmentLoadInfo(
    segmentId: SegmentId,
    partitionId: int,
    collectionId: CollectionId,
    binlogPaths: seq<FieldBinlog>,
    numOfRows: Int64,
    statslogs: seq<FieldBinlog>,
    deltalogs: seq<FieldBinlog>,
    insertChannel: Channel)

  /** datapb.VchannelInfo: a channel with its unflushed (growing) segments. */
  datatype VchannelInfo = VchannelInfo(channelName: Channel, unflushedSegmentIds: seq<SegmentId>)

  /** querypb.WatchDmChannelsRequest, the parts the growing-segment load reads.
      A key of segmentInfos stands for a non-nil entry of the Go map. */
  datatype WatchDmChannelsRequest = WatchDmChannelsRequest(
    infos: seq<VchannelInfo>,
    segmentInfos: map<SegmentId, SegmentInfo>,
    version: int)

  /** querypb.LoadSegmentsRequest, the parts delta-log and index loading read. */
  datatype LoadSegmentsRequest = LoadSegmentsRequest(
    collectionId: CollectionId,
    infos: seq<SegmentLoadInfo>,
    version: int)

  /** What the segment manager's GetSealed finds: the local, loadable kind
      (segments.LocalSegment) or some other implementation of Segment. */
  datatype SegmentKind = LocalSegment | OtherSegment

  datatype DataScope = ScopeAll | ScopeStreaming | ScopeHistorical

  /** querypb.QueryRequest (with its inner internalpb.RetrieveRequest). */
  datatype QueryRequest = QueryRequest(
    msgId: int,
    collectionId: CollectionId,
    segmentIds: seq<SegmentId>,
    fromShardLeader: bool,
    scope: DataScope)

  /** querypb.GetStatisticsRequest (with its inner request). */
  datatype GetStatisticsRequest = GetStatisticsRequest(
    collectionId: CollectionId,
    partitionIds: seq<int>,
    segmentIds: seq<SegmentId>,
    fromShardLeader: bool,
    scope: DataScope)

  /** The fields of a search request a delegator sees when it is asked to
      search; the request object itself is Handlers.SearchRequest. */
  datatype SearchView = SearchView(
    collectionId: CollectionId,
    serializedExprPlan: Option<seq<bv8>>,
    totalChannelNum: int,
    nq: Int64,
    topk: Int64,
    metricType: string)

  /** Opaque partial results and reduced results of query and search. */
  datatype RetrieveResults = RetrieveResults(payload: seq<bv8>)
  datatype SearchResults = SearchResults(payload: seq<bv8>)

  /** commonpb.KeyValuePair and internalpb.GetStatisticsResponse. */
  datatype KeyValuePair = KeyValuePair(key: string, value: string)
  datatype StatisticsResponse = StatisticsResponse(status: Status, stats: seq<KeyValuePair>)

  /** segments.SegmentStats: the row count of one segment. */
  datatype SegmentStats = SegmentStats(segmentId: SegmentId, rowCount: Int64)

  /** The collection schema the internal query reducer is built from. */
  datatype Schema = Schema(fieldNames: seq<string>)

  /** planpb: the search parameters of a vector search. */
  datatype QueryInfo = QueryInfo(topk: Int64, metricType: string, searchParams: string, roundDecimal: int)

  /** planpb.Expr, kept as its encoded form. */
  datatype Expr = Expr(encoded: seq<bv8>)

  /** planpb.VectorANNS: a vector-similarity search with an optional filter. */
  datatype VectorAnns = VectorAnns(
    isBinary: bool,
    fieldId: int,
    predicates: Option<Expr>,
    queryInfo: QueryInfo,
    placeholderTag: string)

  /** The tagged union of planpb.PlanNode: a vector search, a bare predicate,
      a query node, or no node at all. */
  datatype PlanNodeKind =
    | VectorAnnsNode(anns: VectorAnns)
    | PredicatesNode(expr: Expr)
    | QueryPlanNode(predicates: Option<Expr>, isCount: bool)
    | NoNode

  datatype PlanNode = PlanNode(node: PlanNodeKind, outputFieldIds: seq<int>)

  /** One shard's snapshot from GetSegmentInfo: the segments it serves. */
  datatype SnapshotItem = SnapshotItem(nodeId: int, segments: seq<SegmentId>)

  /** proto.Unmarshal / proto.Marshal of a plan: opaque and possibly failing
      (the error text is carried). */
  datatype PlanCodec = PlanCodec(
    unmarshal: seq<bv8> -> Result<PlanNode>,
    marshal: PlanNode -> Result<seq<bv8>>)

  /** The well-known keys of the parameter map handed to the query hook. */
  datatype HookParams = HookParams(
    topk: Int64,
    searchParams: string,
    segmentNum: int,
    withFilter: bool,
    collectionId: CollectionId)

  /** The optional query hook: Run either fails or leaves the parameters as
      it has rewritten them. */
  datatype QueryHook = QueryHook(run: HookParams -> Result<HookParams>)

  /** The shard delegator capability. sealedSnapshot is the sealed part of
      what GetSegmentInfo(true) returns. */
  datatype Delegator = Delegator(
    loadGrowing: (seq<SegmentLoadInfo>, int) -> Option<Error>,
    query: QueryRequest -> Result<seq<RetrieveResults>>,
    queryStream: QueryRequest -> Option<Error>,
    search: SearchView -> Result<seq<SearchResults>>,
    getStatistics: GetStatisticsRequest -> Result<seq<StatisticsResponse>>,
    sealedSnapshot: seq<SnapshotItem>)

  /** The segment loader. A call's outcome may depend on which item of the
      request (its position) is being loaded as well as on its arguments. */
  datatype Loader = Loader(
    loadDeltaLogs: (nat, SegmentId, seq<FieldBinlog>) -> Option<Error>,
    loadIndex: (nat, SegmentId, SegmentLoadInfo, int) -> Option<Error>)

  /** tasks.QueryStreamTask as far as the handler builds it. */
  datatype QueryStreamTask = QueryStreamTask(collectionId: CollectionId, request: QueryRequest)

  /** The task scheduler: Add submits, Wait blocks until the task ends. */
  datatype Scheduler = Scheduler(
    add: QueryStreamTask -> Option<Error>,
    wait: QueryStreamTask -> Option<Error>)

  /** The result reducers the pipelines hand partial results to. */
  datatype Reducers = Reducers(
    reduceRetrieve: (QueryRequest, Schema, seq<RetrieveResults>) -> Result<RetrieveResults>,
    reduceSearch: (seq<SearchResults>, Int64, Int64, string) -> Result<SearchResults>)

  /** What segments.StatisticsHistorical / StatisticStreaming produce: the
      per-segment statistics and the segments they pinned for reading. */
  datatype PinnedStats = PinnedStats(stats: seq<SegmentStats>, pinned: seq<SegmentId>)

  datatype StatisticsSource = StatisticsSource(
    historical: (CollectionId, seq<int>, seq<SegmentId>) -> Result<PinnedStats>,
    streaming: (CollectionId, seq<int>, seq<SegmentId>) -> Result<PinnedStats>)
}
