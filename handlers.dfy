/** The query node's request handlers: segment delta-log and index loading,
    the search-parameter optimizer, the query / streaming-query / search
    pipelines with their metrics, cancellation and liveness bookkeeping, and
    channel statistics dispatch. */
module Handlers {
  import opened Common
  import opened Messages
  import opened SegmentLoad
  import opened Statistics

  /** The request-kind label of the query node's metrics. */
  datatype Label = QueryLabel | SearchLabel

  /** What a request does that can be observed, in the order it happens:
      liveness-token acquisition and release, metric updates, the creation and
      cancellation of the request's child context, and collaborator calls. */
  datatype Event =
    | LifetimeAdd
    | LifetimeDone
    | CountTotal(kind: Label)
    | CountFail(kind: Label)
    | CountSuccess(kind: Label)
    | ObserveLatency(kind: Label)
    | ObserveNq(nq: Int64)
    | ObserveTopk(topk: Int64)
    | OpenContext
    | CancelContext
    | CallOptimize
    | CallDelegator
    | CallReduce
    | SubmitTask(task: QueryStreamTask)
    | WaitTask(task: QueryStreamTask)

  /** Some occurrence of e comes before some occurrence of f in es. */
  predicate Before(es: seq<Event>, e: Event, f: Event) {
    exists i, j :: 0 <= i < j < |es| && es[i] == e && es[j] == f
  }

  // ---------------------------------------------------------------------
  // Query

  /** Where queryChannel returns. */
  datatype QueryExit =
    | QueryChannelMissing
    | QueryFailed
    | QueryCollectionMissing
    | QueryReduceFailed
    | QueryDone

  /** The events of one queryChannel request that leaves at exit. The
      deferred steps run last registered, first run: the context is
      cancelled, then the failure counter is updated when the error the
      function returns through its own err variable is set. */
  function QueryEvents(exit: QueryExit): seq<Event> {
    [CountTotal(QueryLabel), OpenContext] + QuerySteps(exit)
      + [CancelContext]
      + (if QueryFails(exit) then [CountFail(QueryLabel)] else [])
  }

  /** The exits on which queryChannel's function-scope err is set. */
  predicate QueryFails(exit: QueryExit) {
    exit == QueryFailed || exit == QueryReduceFailed
  }

  /** The events of a query between opening its context and the deferred
      steps: the delegator call, the reduction, the success metrics. */
  function QuerySteps(exit: QueryExit): seq<Event> {
    match exit
    case QueryChannelMissing => []
    case QueryFailed => [CallDelegator]
    case QueryCollectionMissing => [CallDelegator]
    case QueryReduceFailed => [CallDelegator, CallReduce]
    case QueryDone => [CallDelegator, CallReduce, ObserveLatency(QueryLabel), CountSuccess(QueryLabel)]
  }

  lemma QueryEventsMembers(exit: QueryExit, e: Event)
    ensures e in QueryEvents(exit) <==>
      e == CountTotal(QueryLabel) || e == OpenContext || e in QuerySteps(exit) || e == CancelContext ||
      (QueryFails(exit) && e == CountFail(QueryLabel))
  {
  }

  /** The metrics of a query: every request is counted; a success is counted
      (with its latency) exactly when the query reduced, a failure exactly
      when the delegator or the reducer failed; the lookup failures count
      neither, and nothing is counted under the search label. */
  lemma QueryMetrics(exit: QueryExit)
    ensures var es := QueryEvents(exit);
      CountTotal(QueryLabel) in es &&
      (CountSuccess(QueryLabel) in es <==> exit == QueryDone) &&
      (ObserveLatency(QueryLabel) in es <==> exit == QueryDone) &&
      (CountFail(QueryLabel) in es <==> exit == QueryFailed || exit == QueryReduceFailed) &&
      CountTotal(SearchLabel) !in es && CountFail(SearchLabel) !in es && CountSuccess(SearchLabel) !in es
  {
    QueryEventsMembers(exit, CountSuccess(QueryLabel));
    QueryEventsMembers(exit, ObserveLatency(QueryLabel));
    QueryEventsMembers(exit, CountFail(QueryLabel));
    QuerySearchLabelFree(exit);
  }

  /** A query counts nothing under the search label. */
  lemma QuerySearchLabelFree(exit: QueryExit)
    ensures var es := QueryEvents(exit);
      CountTotal(SearchLabel) !in es && CountFail(SearchLabel) !in es && CountSuccess(SearchLabel) !in es
  {
    QueryEventsMembers(exit, CountTotal(SearchLabel));
    QueryEventsMembers(exit, CountFail(SearchLabel));
    QueryEventsMembers(exit, CountSuccess(SearchLabel));
  }

  /** The child context of a query is opened first and cancelled after every
      call, and the reducer only ever runs after the delegator. */
  lemma QueryContextAndOrder(exit: QueryExit)
    ensures var es := QueryEvents(exit);
      es[1] == OpenContext && Before(es, OpenContext, CancelContext) &&
      (CallDelegator in es <==> exit != QueryChannelMissing) &&
      (CallReduce in es <==> exit == QueryReduceFailed || exit == QueryDone) &&
      (CallReduce in es ==> Before(es, CallDelegator, CallReduce))
  {
    var es := QueryEvents(exit);
    var steps := QuerySteps(exit);
    QueryEventsMembers(exit, CallDelegator);
    QueryEventsMembers(exit, CallReduce);
    assert es[1] == OpenContext && es[2 + |steps|] == CancelContext;
    if CallReduce in es {
      assert steps[0] == CallDelegator && steps[1] == CallReduce;
      assert es[2] == CallDelegator && es[3] == CallReduce;
    }
  }

  /** Where queryChannelStream returns. */
  datatype StreamExit = StreamChannelMissing | StreamFailed | StreamDone

  /** The events of one queryChannelStream request that leaves at exit. */
  function StreamEvents(exit: StreamExit): seq<Event> {
    [CountTotal(QueryLabel), OpenContext]
      + (if exit == StreamChannelMissing then [] else [CallDelegator])
      + [CancelContext]
      + (if exit == StreamFailed then [CountFail(QueryLabel)] else [])
  }

  /** A streamed query is counted, counted as failed exactly when the
      delegator's stream failed, and never counted as a success; on every
      exit its context is opened and then cancelled, and the delegator is
      called once it is found. */
  lemma StreamMetrics(exit: StreamExit)
    ensures var es := StreamEvents(exit);
      CountTotal(QueryLabel) in es &&
      (CountFail(QueryLabel) in es <==> exit == StreamFailed) &&
      CountSuccess(QueryLabel) !in es &&
      es[1] == OpenContext && CancelContext in es && Before(es, OpenContext, CancelContext) &&
      es[|es| - 1] in {CancelContext, CountFail(QueryLabel)} &&
      (CallDelegator in es <==> exit != StreamChannelMissing)
  {
    var es := StreamEvents(exit);
    var k := if exit == StreamChannelMissing then 2 else 3;
    assert es[k] == CancelContext;
  }

  // ---------------------------------------------------------------------
  // Search

  /** Where searchChannel returns. */
  datatype SearchExit =
    | Unhealthy
    | SearchChannelMissing
    | OptimizeFailed
    | SearchFailed
    | SearchReduceFailed
    | SearchDone

  /** The events of one searchChannel request that leaves at exit; nq and topk
      are the request's own. */
  function SearchEvents(exit: SearchExit, nq: Int64, topk: Int64): seq<Event> {
    if exit == Unhealthy then []
    else
      SearchOpened(exit, nq, topk)
        + [CancelContext]
        + (if SearchFails(exit) then [CountFail(SearchLabel)] else [])
        + [LifetimeDone]
  }

  /** The exits on which searchChannel's function-scope err is set. */
  predicate SearchFails(exit: SearchExit) {
    exit == OptimizeFailed || exit == SearchFailed || exit == SearchReduceFailed
  }

  /** The events of a search before its deferred steps run. */
  function SearchOpened(exit: SearchExit, nq: Int64, topk: Int64): seq<Event> {
    if exit == Unhealthy then []
    else [LifetimeAdd, CountTotal(SearchLabel), OpenContext] + SearchSteps(exit, nq, topk)
  }

  /** The events of a search's pipeline on the delegator it found: optimize,
      search, reduce, each only when the one before succeeded, and the
      success metrics after a reduction. */
  function SearchSteps(exit: SearchExit, nq: Int64, topk: Int64): seq<Event> {
    match exit
    case Unhealthy => []
    case SearchChannelMissing => []
    case OptimizeFailed => [CallOptimize]
    case SearchFailed => [CallOptimize, CallDelegator]
    case SearchReduceFailed => [CallOptimize, CallDelegator, CallReduce]
    case SearchDone =>
      [CallOptimize, CallDelegator, CallReduce,
       ObserveLatency(SearchLabel), CountSuccess(SearchLabel), ObserveNq(nq), ObserveTopk(topk)]
  }

  /** What a search records: what it recorded before its deferred steps,
      then the context's cancellation, the failure count and the token's
      release. */
  lemma SearchEventsMembers(exit: SearchExit, nq: Int64, topk: Int64, e: Event)
    ensures e in SearchEvents(exit, nq, topk) <==>
      exit != Unhealthy &&
      (e == LifetimeAdd || e == CountTotal(SearchLabel) || e == OpenContext ||
       e in SearchSteps(exit, nq, topk) || e == CancelContext || e == LifetimeDone ||
       (SearchFails(exit) && e == CountFail(SearchLabel)))
  {
  }

  /** The counters of a search: an unhealthy node records nothing; every
      other request is counted, as a success exactly when it was reduced, as
      a failure exactly when the optimizer, delegator or reducer failed (a
      missing channel is neither). */
  lemma SearchCounters(exit: SearchExit, nq: Int64, topk: Int64)
    ensures var es := SearchEvents(exit, nq, topk);
      (exit == Unhealthy <==> es == []) &&
      (CountTotal(SearchLabel) in es <==> exit != Unhealthy) &&
      (CountSuccess(SearchLabel) in es <==> exit == SearchDone) &&
      (CountFail(SearchLabel) in es <==> exit == OptimizeFailed || exit == SearchFailed || exit == SearchReduceFailed)
  {
    SearchEventsMembers(exit, nq, topk, CountTotal(SearchLabel));
    SearchEventsMembers(exit, nq, topk, CountSuccess(SearchLabel));
    SearchEventsMembers(exit, nq, topk, CountFail(SearchLabel));
  }

  /** Latency, nq and top-K are observed for a successful search and never
      otherwise. */
  lemma SearchObservations(exit: SearchExit, nq: Int64, topk: Int64)
    ensures var es := SearchEvents(exit, nq, topk);
      (ObserveLatency(SearchLabel) in es <==> exit == SearchDone) &&
      (ObserveNq(nq) in es <==> exit == SearchDone) &&
      (ObserveTopk(topk) in es <==> exit == SearchDone)
  {
    SearchEventsMembers(exit, nq, topk, ObserveLatency(SearchLabel));
    SearchEventsMembers(exit, nq, topk, ObserveNq(nq));
    SearchEventsMembers(exit, nq, topk, ObserveTopk(topk));
  }

  /** A search that takes the liveness token releases it as its very last
      step, and every context it opens it cancels. */
  lemma SearchLifetime(exit: SearchExit, nq: Int64, topk: Int64)
    ensures var es := SearchEvents(exit, nq, topk);
      (LifetimeAdd in es <==> LifetimeDone in es) &&
      (OpenContext in es <==> CancelContext in es) &&
      (OpenContext in es ==> Before(es, OpenContext, CancelContext)) &&
      (exit != Unhealthy ==> es[0] == LifetimeAdd && es[|es| - 1] == LifetimeDone)
  {
    var es := SearchEvents(exit, nq, topk);
    SearchEventsMembers(exit, nq, topk, LifetimeAdd);
    SearchEventsMembers(exit, nq, topk, LifetimeDone);
    SearchEventsMembers(exit, nq, topk, OpenContext);
    SearchEventsMembers(exit, nq, topk, CancelContext);
    if exit != Unhealthy {
      var pre := SearchOpened(exit, nq, topk);
      assert pre[0] == LifetimeAdd && pre[2] == OpenContext;
      assert es[0] == LifetimeAdd && es[2] == OpenContext && es[|pre|] == CancelContext;
    }
  }

  /** A step of a search's pipeline runs exactly when the one before it
      succeeded: the delegator is searched once the plan is optimized, and
      the reducer runs once the delegator answered. */
  lemma SearchCalls(exit: SearchExit, nq: Int64, topk: Int64)
    ensures var es := SearchEvents(exit, nq, topk);
      (CallDelegator in es <==> exit == SearchFailed || exit == SearchReduceFailed || exit == SearchDone) &&
      (CallReduce in es <==> exit == SearchReduceFailed || exit == SearchDone)
  {
    SearchEventsMembers(exit, nq, topk, CallDelegator);
    SearchEventsMembers(exit, nq, topk, CallReduce);
  }

  /** The pipeline steps of a search run in the order optimize, search,
      reduce, on every exit that gets that far. */
  lemma SearchOrder(exit: SearchExit, nq: Int64, topk: Int64)
    ensures var es := SearchEvents(exit, nq, topk);
      (exit == SearchFailed || exit == SearchReduceFailed || exit == SearchDone ==>
         Before(es, CallOptimize, CallDelegator)) &&
      (exit == SearchReduceFailed || exit == SearchDone ==>
         Before(es, CallDelegator, CallReduce))
  {
    var steps := SearchSteps(exit, nq, topk);
    if exit == SearchFailed || exit == SearchReduceFailed || exit == SearchDone {
      assert steps[0] == CallOptimize && steps[1] == CallDelegator;
      SearchStepAt(exit, nq, topk, 0);
      SearchStepAt(exit, nq, topk, 1);
      if exit != SearchFailed {
        assert steps[2] == CallReduce;
        SearchStepAt(exit, nq, topk, 2);
      }
    }
  }

  /** The pipeline's events follow the three opening events. */
  lemma SearchStepAt(exit: SearchExit, nq: Int64, topk: Int64, k: nat)
    requires k < |SearchSteps(exit, nq, topk)|
    ensures SearchEvents(exit, nq, topk)[3 + k] == SearchSteps(exit, nq, topk)[k]
  {
    var pre := SearchOpened(exit, nq, topk);
    assert pre[3 + k] == SearchSteps(exit, nq, topk)[k];
  }

  // ---------------------------------------------------------------------
  // Search-parameter optimization

  /** A channel count that is not set (zero or less) counts as one channel. */
  function EffectiveChannelNum(totalChannelNum: int): int {
    if totalChannelNum <= 0 then 1 else totalChannelNum
  }

  /** The sealed segments of every shard snapshot, summed left to right. */
  function SealedSegmentCount(snapshot: seq<SnapshotItem>): nat {
    if snapshot == [] then 0
    else SealedSegmentCount(snapshot[..|snapshot| - 1]) + |snapshot[|snapshot| - 1].segments|
  }

  /** The count over several snapshots is the sum of the counts over each. */
  lemma {:induction false} SealedSegmentCountAppend(a: seq<SnapshotItem>, b: seq<SnapshotItem>)
    ensures SealedSegmentCount(a + b) == SealedSegmentCount(a) + SealedSegmentCount(b)
    decreases |b|
  {
    if b == [] {
      assert a + b == a;
    } else {
      assert (a + b)[..|a + b| - 1] == a + b[..|b| - 1];
      SealedSegmentCountAppend(a, b[..|b| - 1]);
    }
  }

  /** The parameter map handed to the query hook for a vector search. */
  function HookInput(anns: VectorAnns, snapshot: seq<SnapshotItem>, totalChannelNum: int, collectionId: CollectionId): HookParams {
    HookParams(
      topk := anns.queryInfo.topk,
      searchParams := anns.queryInfo.searchParams,
      segmentNum := SealedSegmentCount(snapshot) * EffectiveChannelNum(totalChannelNum),
      withFilter := anns.predicates.Some?,
      collectionId := collectionId)
  }

  /** The plan with the hook's top-K and search parameters written back. */
  function Retuned(plan: PlanNode, params: HookParams): PlanNode
    requires plan.node.VectorAnnsNode?
  {
    var anns := plan.node.anns;
    plan.(node := VectorAnnsNode(anns.(queryInfo := anns.queryInfo.(topk := params.topk, searchParams := params.searchParams))))
  }

  /** Only top-K and search parameters can change: a hook that hands the
      parameters back as it got them leaves the plan exactly as it was. */
  lemma RetunedUnchanged(plan: PlanNode, snapshot: seq<SnapshotItem>, totalChannelNum: int, collectionId: CollectionId)
    requires plan.node.VectorAnnsNode?
    ensures Retuned(plan, HookInput(plan.node.anns, snapshot, totalChannelNum, collectionId)) == plan
  {
  }

  /** What optimizing a request does to it: keep its plan bytes, replace them,
      or reject it (returning the request itself, or nil, beside the error). */
  datatype Optimization = KeepPlan | NewPlan(plan: seq<bv8>) | Rejected(error: Error, keepsRequest: bool)

  /** The decision optimizeSearchParams makes for a request. */
  function Optimize(hook: Option<QueryHook>, codec: PlanCodec, serializedPlan: Option<seq<bv8>>,
                    totalChannelNum: int, collectionId: CollectionId, snapshot: seq<SnapshotItem>): Optimization
  {
    if hook.None? then KeepPlan
    else if serializedPlan.None? then Rejected(ParameterInvalid("serialized search plan", "nil", ""), true)
    else
      match codec.unmarshal(serializedPlan.value)
      case Err(e) =>
        Rejected(ParameterInvalid("valid serialized search plan", "no unmarshalable one", MessageOf(e)), false)
      case Ok(plan) =>
        if !plan.node.VectorAnnsNode? then KeepPlan
        else
          match hook.value.run(HookInput(plan.node.anns, snapshot, totalChannelNum, collectionId))
          case Err(e) => Rejected(ServiceUnavailable(MessageOf(e), "queryHook execution failed"), false)
          case Ok(params) =>
            match codec.marshal(Retuned(plan, params))
            case Err(e) =>
              Rejected(ParameterInvalid("marshalable search plan", "plan with marshal error", MessageOf(e)), false)
            case Ok(bytes) => NewPlan(bytes)
  }

  /** A request is rejected exactly when there is a hook and the plan is
      missing, does not decode, or is a vector search the hook fails on or
      whose retuned plan does not encode; only the missing plan leaves the
      request in the reply. The service is reported unavailable exactly when
      the hook failed; every other rejection is an invalid parameter. */
  lemma OptimizeRejects(hook: Option<QueryHook>, codec: PlanCodec, serializedPlan: Option<seq<bv8>>,
                        totalChannelNum: int, collectionId: CollectionId, snapshot: seq<SnapshotItem>)
    ensures var o := Optimize(hook, codec, serializedPlan, totalChannelNum, collectionId, snapshot);
      (o.Rejected? <==>
        hook.Some? &&
        (serializedPlan.None? ||
         codec.unmarshal(serializedPlan.value).Err? ||
         (var plan := codec.unmarshal(serializedPlan.value).value;
          plan.node.VectorAnnsNode? &&
          var ran := hook.value.run(HookInput(plan.node.anns, snapshot, totalChannelNum, collectionId));
          ran.Err? || codec.marshal(Retuned(plan, ran.value)).Err?))) &&
      (o.Rejected? ==> (o.keepsRequest <==> serializedPlan.None?)) &&
      (o.Rejected? ==> (o.error.ServiceUnavailable? || o.error.ParameterInvalid?)) &&
      (o.Rejected? ==>
        (o.error.ServiceUnavailable? <==>
          serializedPlan.Some? && codec.unmarshal(serializedPlan.value).Ok? &&
          var plan := codec.unmarshal(serializedPlan.value).value;
          plan.node.VectorAnnsNode? &&
          hook.value.run(HookInput(plan.node.anns, snapshot, totalChannelNum, collectionId)).Err?))
  {
  }

  /** Without a hook, and for a plan that is not a vector search, nothing is
      changed; a new plan is always the encoding of the decoded plan with
      the hook's top-K and search parameters written back, and nothing else
      of the plan changed. */
  lemma OptimizeKeepsOrRetunes(hook: Option<QueryHook>, codec: PlanCodec, serializedPlan: Option<seq<bv8>>,
                               totalChannelNum: int, collectionId: CollectionId, snapshot: seq<SnapshotItem>)
    ensures var o := Optimize(hook, codec, serializedPlan, totalChannelNum, collectionId, snapshot);
      (hook.None? ==> o == KeepPlan) &&
      ((hook.Some? && serializedPlan.Some? && codec.unmarshal(serializedPlan.value).Ok? &&
        !codec.unmarshal(serializedPlan.value).value.node.VectorAnnsNode?) ==> o == KeepPlan) &&
      (o.NewPlan? ==>
        hook.Some? && serializedPlan.Some? && codec.unmarshal(serializedPlan.value).Ok? &&
        var plan := codec.unmarshal(serializedPlan.value).value;
        plan.node.VectorAnnsNode? &&
        var ran := hook.value.run(HookInput(plan.node.anns, snapshot, totalChannelNum, collectionId));
        ran.Ok? && codec.marshal(Retuned(plan, ran.value)) == Ok(o.plan) &&
        Retuned(plan, ran.value).outputFieldIds == plan.outputFieldIds &&
        Retuned(plan, ran.value).node.anns.predicates == plan.node.anns.predicates &&
        Retuned(plan, ran.value).node.anns.queryInfo.metricType == plan.node.anns.queryInfo.metricType)
  {
  }

  /** err.Error(): the text of a collaborator's error. */
  function MessageOf(e: Error): string {
    if e.Foreign? then e.message else ""
  }

  /** The first error among outcomes taken in order, if any. */
  function FirstError(os: seq<Option<Error>>): Option<Error> {
    if os == [] then None
    else
      match FirstError(os[..|os| - 1])
      case Some(e) => Some(e)
      case None => os[|os| - 1]
  }

  lemma FirstErrorSnoc(os: seq<Option<Error>>, o: Option<Error>)
    ensures FirstError(os + [o]) == if FirstError(os).Some? then FirstError(os) else o
  {
    assert (os + [o])[..|os|] == os;
  }

  /** FirstError is none exactly when every outcome is a success, and
      otherwise it is an outcome that only successes precede. */
  lemma {:induction false} FirstErrorSpec(os: seq<Option<Error>>)
    ensures FirstError(os).None? <==> forall k :: 0 <= k < |os| ==> os[k].None?
    ensures FirstError(os).Some? ==>
      exists j :: 0 <= j < |os| && os[j] == FirstError(os) && forall i :: 0 <= i < j ==> os[i].None?
  {
    if os != [] {
      var init := os[..|os| - 1];
      FirstErrorSpec(init);
      assert forall k :: 0 <= k < |init| ==> init[k] == os[k];
      if FirstError(init).Some? {
        var j :| 0 <= j < |init| && init[j] == FirstError(init) && forall i :: 0 <= i < j ==> init[i].None?;
        assert os[j] == FirstError(os);
      } else {
        assert os[|os| - 1] == FirstError(os);
      }
    }
  }

  /** merr.Status: success for no error, the error's failure otherwise. */
  function StatusOf(err: Option<Error>): (s: Status)
    ensures s.Success? <==> err.None?
  {
    match err
    case None => Success
    case Some(e) => Failure(e)
  }

  /** querypb.SearchRequest: the handlers read its fields and the optimizer
      rewrites its serialized plan in place. */
  class SearchRequest {
    const collectionId: CollectionId
    const totalChannelNum: int
    const nq: Int64
    const topk: Int64
    const metricType: string
    var serializedExprPlan: Option<seq<bv8>>

    constructor (collectionId: CollectionId, totalChannelNum: int, nq: Int64, topk: Int64,
                 metricType: string, serializedExprPlan: Option<seq<bv8>>)
      ensures this.collectionId == collectionId && this.totalChannelNum == totalChannelNum
      ensures this.nq == nq && this.topk == topk && this.metricType == metricType
      ensures this.serializedExprPlan == serializedExprPlan
    {
      this.collectionId := collectionId;
      this.totalChannelNum := totalChannelNum;
      this.nq := nq;
      this.topk := topk;
      this.metricType := metricType;
      this.serializedExprPlan := serializedExprPlan;
    }

    /** What the delegator is given when asked to search. */
    function View(): SearchView
      reads this
    {
      SearchView(collectionId, serializedExprPlan, totalChannelNum, nq, topk, metricType)
    }
  }

  /** The outcome of getChannelStatistics: a response (with a nil Go error),
      a Go error, or the nil-pointer dereference of the code as written. */
  datatype StatisticsReply = Reply(response: StatisticsResponse) | Failed(error: Error) | NilDereference

  /** A response carrying only a failure status. */
  function FailureResponse(e: Error): StatisticsResponse {
    StatisticsResponse(Failure(e), [])
  }

  /** The query node: its collaborators, its liveness state, and the log of
      what its requests have done (metrics, contexts, calls). */
  class QueryNode {
    const delegators: map<Channel, Delegator>
    const collections: map<CollectionId, Schema>
    const sealed: map<SegmentId, SegmentKind>
    const loader: Loader
    const scheduler: Scheduler
    const queryHook: Option<QueryHook>
    const codec: PlanCodec
    const reducers: Reducers
    const statistics: StatisticsSource
    const healthy: bool
    var events: seq<Event>

    constructor (delegators: map<Channel, Delegator>, collections: map<CollectionId, Schema>,
                 sealed: map<SegmentId, SegmentKind>, loader: Loader, scheduler: Scheduler,
                 queryHook: Option<QueryHook>, codec: PlanCodec, reducers: Reducers,
                 statistics: StatisticsSource, healthy: bool)
      ensures this.delegators == delegators && this.collections == collections && this.sealed == sealed
      ensures this.loader == loader && this.scheduler == scheduler && this.queryHook == queryHook
      ensures this.codec == codec && this.reducers == reducers && this.statistics == statistics
      ensures this.healthy == healthy && events == []
    {
      this.delegators := delegators;
      this.collections := collections;
      this.sealed := sealed;
      this.loader := loader;
      this.scheduler := scheduler;
      this.queryHook := queryHook;
      this.codec := codec;
      this.reducers := reducers;
      this.statistics := statistics;
      this.healthy := healthy;
      this.events := [];
    }

    /** The delta-log loader's outcome for item k of a request. */
    function DeltaOutcome(infos: seq<SegmentLoadInfo>, k: nat): Option<Error>
      requires k < |infos|
    {
      loader.loadDeltaLogs(k, infos[k].segmentId, infos[k].deltalogs)
    }

    /** The delta-log loader's outcomes for the items at positions ps. */
    function DeltaOutcomes(infos: seq<SegmentLoadInfo>, ps: seq<nat>): (os: seq<Option<Error>>)
      requires forall a :: 0 <= a < |ps| ==> ps[a] < |infos|
    {
      seq(|ps|, a requires 0 <= a < |ps| => DeltaOutcome(infos, ps[a]))
    }

    /** The index loader's outcome for item k of a request. */
    function IndexOutcome(req: LoadSegmentsRequest, k: nat): Option<Error>
      requires k < |req.infos|
    {
      loader.loadIndex(k, req.infos[k].segmentId, req.infos[k], req.version)
    }

    /** The index loader's outcomes for the items at positions ps. */
    function IndexOutcomes(req: LoadSegmentsRequest, ps: seq<nat>): (os: seq<Option<Error>>)
      requires forall a :: 0 <= a < |ps| ==> ps[a] < |req.infos|
    {
      seq(|ps|, a requires 0 <= a < |ps| => IndexOutcome(req, ps[a]))
    }

    /** loadDeltaLogs: every item whose segment is sealed here is loaded, in
        order, whatever earlier items did (continue on error); items without a
        sealed segment are skipped. The status carries the first failure, or
        is a success when no load failed (FirstErrorSpec). A sealed segment
        that is not local would make the source's type assertion panic, hence
        the precondition. */
    method LoadDeltaLogs(req: LoadSegmentsRequest) returns (status: Status, attempted: seq<nat>)
      requires forall i :: 0 <= i < |req.infos| && req.infos[i].segmentId in sealed ==>
        sealed[req.infos[i].segmentId] == LocalSegment
      ensures attempted == SealedPositions(req.infos, sealed)
      ensures status == StatusOf(FirstError(DeltaOutcomes(req.infos, attempted)))
    {
      var infos := req.infos;
      var finalErr: Option<Error> := None;
      attempted := [];
      for i := 0 to |infos|
        invariant attempted == SealedPositions(infos[..i], sealed)
        invariant finalErr == FirstError(DeltaOutcomes(infos, attempted))
      {
        SealedPositionsStep(infos, sealed, i);
        var info := infos[i];
        if info.segmentId in sealed {
          var err := loader.loadDeltaLogs(i, info.segmentId, info.deltalogs);
          DeltaOutcomesSnoc(infos, attempted, i);
          FirstErrorSnoc(DeltaOutcomes(infos, attempted), err);
          attempted := attempted + [i];
          if err.Some? && finalErr.None? {
            finalErr := err;
          }
        }
        // otherwise: no sealed segment with this ID, skipped
      }
      assert infos[..|infos|] == infos;
      status := StatusOf(finalErr);
    }

    lemma DeltaOutcomesSnoc(infos: seq<SegmentLoadInfo>, ps: seq<nat>, i: nat)
      requires forall a :: 0 <= a < |ps| ==> ps[a] < |infos|
      requires i < |infos|
      ensures DeltaOutcomes(infos, ps + [i]) == DeltaOutcomes(infos, ps) + [DeltaOutcome(infos, i)]
    {
    }

    lemma IndexOutcomesSnoc(req: LoadSegmentsRequest, ps: seq<nat>, i: nat)
      requires forall a :: 0 <= a < |ps| ==> ps[a] < |req.infos|
      requires i < |req.infos|
      ensures IndexOutcomes(req, ps + [i]) == IndexOutcomes(req, ps) + [IndexOutcome(req, i)]
    {
    }

    /** One more item loaded after a run of successes: its outcome is the
        first failure so far, and a success extends the run. */
    lemma IndexAttemptStep(req: LoadSegmentsRequest, ps: seq<nat>, i: nat)
      requires forall a :: 0 <= a < |ps| ==> ps[a] < |req.infos|
      requires i < |req.infos|
      requires forall a :: 0 <= a < |ps| ==> IndexOutcome(req, ps[a]).None?
      ensures forall a :: 0 <= a < |ps + [i]| ==> (ps + [i])[a] < |req.infos|
      ensures FirstError(IndexOutcomes(req, ps + [i])) == IndexOutcome(req, i)
      ensures IndexOutcome(req, i).None? ==>
        forall a :: 0 <= a < |ps + [i]| ==> IndexOutcome(req, (ps + [i])[a]).None?
    {
      FirstErrorSpec(IndexOutcomes(req, ps));
      IndexOutcomesSnoc(req, ps, i);
      FirstErrorSnoc(IndexOutcomes(req, ps), IndexOutcome(req, i));
    }

    /** loadIndex: the sealed, local items are loaded in order until the
        first failure, which stops the loop; missing and non-local segments
        are skipped. The attempted items are a prefix of the loadable ones,
        every one but the last succeeded, and the status is the last one's
        failure, if any; a success means every loadable item was attempted. */
    method LoadIndex(req: LoadSegmentsRequest) returns (status: Status, attempted: seq<nat>)
      ensures attempted <= LocalPositions(req.infos, sealed)
      ensures status == StatusOf(FirstError(IndexOutcomes(req, attempted)))
      ensures status.Success? ==> attempted == LocalPositions(req.infos, sealed)
      ensures status.Failure? ==>
        |attempted| > 0 && IndexOutcome(req, attempted[|attempted| - 1]) == Some(status.error)
      ensures forall a :: 0 <= a < |attempted| - 1 ==> IndexOutcome(req, attempted[a]).None?
    {
      var infos := req.infos;
      status := Success;
      attempted := [];
      for i := 0 to |infos|
        invariant attempted == LocalPositions(infos[..i], sealed)
        invariant forall a :: 0 <= a < |attempted| ==> IndexOutcome(req, attempted[a]).None?
      {
        LocalPositionsStep(infos, sealed, i);
        var info := infos[i];
        if info.segmentId in sealed && sealed[info.segmentId] == LocalSegment {
          var err := loader.loadIndex(i, info.segmentId, info, req.version);
          IndexAttemptStep(req, attempted, i);
          attempted := attempted + [i];
          if err.Some? {
            status := Failure(err.value);
            LocalPositionsPrefix(infos, sealed, i + 1);
            return;
          }
        }
        // otherwise: segment missing, or not a local one, skipped
      }
      assert infos[..|infos|] == infos;
      FirstErrorSpec(IndexOutcomes(req, attempted));
    }

    /** queryChannel: count the request, open a cancellable context, find the
        channel's delegator, query it, find the collection, reduce the partial
        results. The deferred steps cancel the context and count a failure
        when the function-scope err is set: a delegator or reducer error,
        but not the channel or collection lookup, whose errors are declared
        afresh in their own blocks. */
    method QueryChannel(req: QueryRequest, channel: Channel) returns (r: Result<RetrieveResults>, ghost exit: QueryExit)
      modifies this`events
      ensures events == old(events) + QueryEvents(exit)
      ensures exit == QueryChannelMissing <==> channel !in delegators
      ensures exit == QueryChannelMissing ==> r == Err(ChannelNotFound(channel, ""))
      ensures channel in delegators ==>
        var results := delegators[channel].query(req);
        (exit == QueryFailed <==> results.Err?) &&
        (results.Err? ==> r == Err(results.error)) &&
        (results.Ok? ==>
          (exit == QueryCollectionMissing <==> req.collectionId !in collections) &&
          (req.collectionId !in collections ==> r == Err(CollectionNotFound(req.collectionId))) &&
          (req.collectionId in collections ==>
            r == reducers.reduceRetrieve(req, collections[req.collectionId], results.value) &&
            (exit == QueryDone <==> r.Ok?)))
    {
      var err: Option<Error> := None;
      // what this request records between opening and cancelling its context
      var steps: seq<Event> := [];
      if channel !in delegators {
        var err := ChannelNotFound(channel, "");
        r, exit := Err(err), QueryChannelMissing;
      } else {
        var sd := delegators[channel];
        steps := steps + [CallDelegator];
        var results := sd.query(req);
        if results.Err? {
          err := Some(results.error);
          r, exit := Err(results.error), QueryFailed;
        } else if req.collectionId !in collections {
          var err := CollectionNotFound(req.collectionId);
          r, exit := Err(err), QueryCollectionMissing;
        } else {
          var collection := collections[req.collectionId];
          steps := steps + [CallReduce];
          var resp := reducers.reduceRetrieve(req, collection, results.value);
          if resp.Err? {
            err := Some(resp.error);
            r, exit := Err(resp.error), QueryReduceFailed;
          } else {
            steps := steps + [ObserveLatency(QueryLabel), CountSuccess(QueryLabel)];
            r, exit := Ok(resp.value), QueryDone;
          }
        }
      }
      assert steps == QuerySteps(exit);
      // counted and opened first; deferred, last registered first: cancel, then the failure counter
      var trace := [CountTotal(QueryLabel), OpenContext] + steps + [CancelContext];
      if err.Some? {
        trace := trace + [CountFail(QueryLabel)];
      }
      events := events + trace;
    }

    /** queryChannelStream: like queryChannel, but the delegator streams the
        results itself; a success is never counted, only total and failure. */
    method QueryChannelStream(req: QueryRequest, channel: Channel) returns (err: Option<Error>, ghost exit: StreamExit)
      modifies this`events
      ensures events == old(events) + StreamEvents(exit)
      ensures exit == StreamChannelMissing <==> channel !in delegators
      ensures exit == StreamChannelMissing ==> err == Some(ChannelNotFound(channel, ""))
      ensures channel in delegators ==>
        err == delegators[channel].queryStream(req) && (exit == StreamFailed <==> err.Some?)
    {
      var trace := [CountTotal(QueryLabel)];
      err := None;
      trace := trace + [OpenContext];
      if channel !in delegators {
        var err := ChannelNotFound(channel, "");
        events := events + (trace + [CancelContext]);
        return Some(err), StreamChannelMissing;
      }
      var sd := delegators[channel];
      trace := trace + [CallDelegator];
      err := sd.queryStream(req);
      exit := if err.Some? then StreamFailed else StreamDone;
      // deferred: cancel the context, then the failure counter
      trace := trace + [CancelContext];
      if err.Some? {
        trace := trace + [CountFail(QueryLabel)];
      }
      events := events + trace;
    }

    /** queryStreamSegments: the task is submitted once and waited for only
        when the submission succeeded; either error is returned as it is. */
    method QueryStreamSegments(req: QueryRequest) returns (err: Option<Error>)
      modifies this`events
      ensures req.collectionId !in collections ==>
        err == Some(CollectionNotFound(req.collectionId)) && events == old(events)
      ensures req.collectionId in collections ==>
        var task := QueryStreamTask(req.collectionId, req);
        if scheduler.add(task).Some?
        then err == scheduler.add(task) && events == old(events) + [SubmitTask(task)]
        else err == scheduler.wait(task) && events == old(events) + [SubmitTask(task), WaitTask(task)]
    {
      if req.collectionId !in collections {
        return Some(CollectionNotFound(req.collectionId));
      }
      var task := QueryStreamTask(req.collectionId, req);
      events := events + [SubmitTask(task)];
      var added := scheduler.add(task);
      if added.Some? {
        return added;
      }
      events := events + [WaitTask(task)];
      err := scheduler.wait(task);
    }

    /** optimizeSearchParams: the decision is Optimize's; the request's plan
        bytes are rewritten only when a new plan was marshalled, and a
        rejected request is left untouched. */
    method OptimizeSearchParams(req: SearchRequest, deleg: Delegator) returns (out: SearchRequest?, err: Option<Error>)
      modifies req
      ensures var o := Optimize(queryHook, codec, old(req.serializedExprPlan), req.totalChannelNum,
                                req.collectionId, deleg.sealedSnapshot);
        (o == KeepPlan ==> out == req && err == None && unchanged(req)) &&
        (o.NewPlan? ==> out == req && err == None && req.serializedExprPlan == Some(o.plan)) &&
        (o.Rejected? ==> err == Some(o.error) && unchanged(req) && out == (if o.keepsRequest then req else null))
    {
      if queryHook.None? {
        return req, None;
      }
      var serializedPlan := req.serializedExprPlan;
      if serializedPlan.None? {
        return req, Some(ParameterInvalid("serialized search plan", "nil", ""));
      }
      var channelNum := req.totalChannelNum;
      if channelNum <= 0 {
        channelNum := 1;
      }
      var plan := codec.unmarshal(serializedPlan.value);
      if plan.Err? {
        return null, Some(ParameterInvalid("valid serialized search plan", "no unmarshalable one", MessageOf(plan.error)));
      }
      match plan.value.node {
        case VectorAnnsNode(anns) =>
          var sealedNum := SealedSegmentCount(deleg.sealedSnapshot);
          var estSegmentNum := sealedNum * channelNum;
          var withFilter := anns.predicates.Some?;
          var params := HookParams(anns.queryInfo.topk, anns.queryInfo.searchParams, estSegmentNum,
                                   withFilter, req.collectionId);
          var ran := queryHook.value.run(params);
          if ran.Err? {
            return null, Some(ServiceUnavailable(MessageOf(ran.error), "queryHook execution failed"));
          }
          var queryInfo := anns.queryInfo.(topk := ran.value.topk, searchParams := ran.value.searchParams);
          var optimized := plan.value.(node := VectorAnnsNode(anns.(queryInfo := queryInfo)));
          var serializedExprPlan := codec.marshal(optimized);
          if serializedExprPlan.Err? {
            return null, Some(ParameterInvalid("marshalable search plan", "plan with marshal error",
                                               MessageOf(serializedExprPlan.error)));
          }
          req.serializedExprPlan := Some(serializedExprPlan.value);
        case _ =>
          // not a supported node type: logged, plan left as it is
      }
      return req, None;
    }

    /** searchChannel: take a liveness token (or return at once when the node
        is unhealthy), count the request, open a cancellable context, find the
        delegator and run the pipeline on it (SearchOnDelegator). The deferred
        steps cancel the context, count a failure when the function-scope err
        is set (an optimizer, delegator or reducer error, not a missing
        channel, whose error is declared afresh in its own block), and release
        the token. */
    method SearchChannel(req: SearchRequest, channel: Channel) returns (r: Result<SearchResults>, ghost exit: SearchExit)
      modifies this`events, req
      ensures events == old(events) + SearchEvents(exit, req.nq, req.topk)
      ensures exit == Unhealthy <==> !healthy
      ensures exit == Unhealthy ==> r == Err(ServiceNotReady) && unchanged(req)
      ensures exit == SearchChannelMissing <==> healthy && channel !in delegators
      ensures exit == SearchChannelMissing ==> r == Err(ChannelNotFound(channel, "")) && unchanged(req)
      ensures healthy && channel in delegators ==>
        var o := Optimize(queryHook, codec, old(req.serializedExprPlan), req.totalChannelNum,
                          req.collectionId, delegators[channel].sealedSnapshot);
        (exit == OptimizeFailed <==> o.Rejected?) &&
        (o.Rejected? ==> r == Err(o.error) && unchanged(req)) &&
        (!o.Rejected? ==>
          req.serializedExprPlan == (if o.NewPlan? then Some(o.plan) else old(req.serializedExprPlan)) &&
          var found := delegators[channel].search(req.View());
          (exit == SearchFailed <==> found.Err?) &&
          (found.Err? ==> r == Err(found.error)) &&
          (found.Ok? ==>
            r == reducers.reduceSearch(found.value, req.nq, req.topk, req.metricType) &&
            (exit == SearchDone <==> r.Ok?)))
    {
      if !healthy {
        return Err(ServiceNotReady), Unhealthy;
      }
      // what this request records, in order; appended to the log at the end
      var trace := [LifetimeAdd, CountTotal(SearchLabel), OpenContext];
      var err: Option<Error> := None;
      if channel !in delegators {
        var err := ChannelNotFound(channel, "");
        r, exit := Err(err), SearchChannelMissing;
      } else {
        var steps;
        r, err, exit, steps := SearchOnDelegator(req, delegators[channel]);
        trace := trace + steps;
      }
      // deferred, last registered first: cancel, failure counter, token release
      trace := trace + [CancelContext];
      if err.Some? {
        trace := trace + [CountFail(SearchLabel)];
      }
      trace := trace + [LifetimeDone];
      events := events + trace;
    }

    /** The part of searchChannel that runs once the delegator sd is found:
        optimize the request, search on sd, reduce the partial results, and
        on success observe the metrics. err is the function-scope error the
        deferred failure counter reads; steps are the events recorded. */
    method SearchOnDelegator(req: SearchRequest, sd: Delegator)
      returns (r: Result<SearchResults>, err: Option<Error>, ghost exit: SearchExit, steps: seq<Event>)
      modifies req
      ensures steps == SearchSteps(exit, req.nq, req.topk)
      ensures exit != Unhealthy && exit != SearchChannelMissing
      ensures err.Some? <==> SearchFails(exit)
      ensures var o := Optimize(queryHook, codec, old(req.serializedExprPlan), req.totalChannelNum,
                                req.collectionId, sd.sealedSnapshot);
        (exit == OptimizeFailed <==> o.Rejected?) &&
        (o.Rejected? ==> r == Err(o.error) && unchanged(req)) &&
        (!o.Rejected? ==>
          req.serializedExprPlan == (if o.NewPlan? then Some(o.plan) else old(req.serializedExprPlan)) &&
          var found := sd.search(req.View());
          (exit == SearchFailed <==> found.Err?) &&
          (found.Err? ==> r == Err(found.error)) &&
          (found.Ok? ==>
            r == reducers.reduceSearch(found.value, req.nq, req.topk, req.metricType) &&
            (exit == SearchDone <==> r.Ok?)))
    {
      steps := [CallOptimize];
      var optimized;
      optimized, err := OptimizeSearchParams(req, sd);
      if err.Some? {
        return Err(err.value), err, OptimizeFailed, steps;
      }
      steps := steps + [CallDelegator];
      var results := sd.search(req.View());
      if results.Err? {
        err := Some(results.error);
        return Err(results.error), err, SearchFailed, steps;
      }
      steps := steps + [CallReduce];
      var resp := reducers.reduceSearch(results.value, req.nq, req.topk, req.metricType);
      if resp.Err? {
        err := Some(resp.error);
        return Err(resp.error), err, SearchReduceFailed, steps;
      }
      steps := steps + [ObserveLatency(SearchLabel), CountSuccess(SearchLabel),
                        ObserveNq(req.nq), ObserveTopk(req.topk)];
      return Ok(resp.value), err, SearchDone, steps;
    }

    /** What the shard leader reads for a statistics request: the historical
        or streaming statistics, or nothing for any other scope. */
    function LeaderStats(req: GetStatisticsRequest): Result<PinnedStats> {
      match req.scope
      case ScopeHistorical => statistics.historical(req.collectionId, req.partitionIds, req.segmentIds)
      case ScopeStreaming => statistics.streaming(req.collectionId, req.partitionIds, req.segmentIds)
      case ScopeAll => Ok(PinnedStats([], []))
    }

    /** getChannelStatistics with the failed reduction reported in the
        response's status, as the other failures of its path are. On the
        leader path the statistics are summed and the pinned segments released
        (a read error is returned as it is); otherwise the Go error is always
        nil and the response's status tells failure from success. */
    method GetChannelStatistics(req: GetStatisticsRequest, channel: Channel)
      returns (reply: StatisticsReply, unpinned: seq<SegmentId>)
      ensures !reply.NilDereference?
      ensures req.fromShardLeader ==>
        var read := LeaderStats(req);
        (read.Err? ==> reply == Failed(read.error) && unpinned == []) &&
        (read.Ok? ==>
          reply == Reply(StatisticsResponse(Success, RowCountStats(Wrap64(TotalRows(read.value.stats))))) &&
          unpinned == read.value.pinned)
      ensures !req.fromShardLeader ==> reply.Reply? && unpinned == []
      ensures !req.fromShardLeader && channel !in delegators ==>
        reply.response == FailureResponse(ChannelNotFound(channel, "failed to get channel statistics"))
      ensures !req.fromShardLeader && channel in delegators ==>
        var got := delegators[channel].getStatistics(req);
        (got.Err? ==> reply.response == FailureResponse(got.error)) &&
        (got.Ok? ==> reply.response == match Reduced(got.value)
                                        case Ok(merged) => merged
                                        case Err(e) => FailureResponse(e))
    {
      unpinned := [];
      if req.fromShardLeader {
        var read := LeaderStats(req);
        if read.Err? {
          return Failed(read.error), [];
        }
        var resp := SegmentStatsResponse(read.value.stats);
        // deferred Unpin of the segments read
        return Reply(resp), read.value.pinned;
      }
      if channel !in delegators {
        var err := ChannelNotFound(channel, "failed to get channel statistics");
        return Reply(FailureResponse(err)), [];
      }
      var results := delegators[channel].getStatistics(req);
      if results.Err? {
        return Reply(FailureResponse(results.error)), [];
      }
      var resp := ReduceStatisticResponse(results.value);
      if resp.Err? {
        return Reply(FailureResponse(resp.error)), [];
      }
      return Reply(resp.value), [];
    }

    /** getChannelStatistics as the source has it: when the reduction fails,
        the response variable is overwritten with the nil the reducer returns
        before its status is assigned, so that path dereferences nil. Every
        other path is as in GetChannelStatistics. */
    method GetChannelStatisticsAsWritten(req: GetStatisticsRequest, channel: Channel)
      returns (reply: StatisticsReply, unpinned: seq<SegmentId>)
      ensures reply.NilDereference? <==>
        !req.fromShardLeader && channel in delegators &&
        delegators[channel].getStatistics(req).Ok? &&
        Reduced(delegators[channel].getStatistics(req).value).Err?
      ensures req.fromShardLeader ==>
        var read := LeaderStats(req);
        (read.Err? ==> reply == Failed(read.error) && unpinned == []) &&
        (read.Ok? ==>
          reply == Reply(StatisticsResponse(Success, RowCountStats(Wrap64(TotalRows(read.value.stats))))) &&
          unpinned == read.value.pinned)
      ensures !req.fromShardLeader ==> unpinned == [] && (reply.Reply? || reply.NilDereference?)
      ensures !req.fromShardLeader && channel !in delegators ==>
        reply == Reply(FailureResponse(ChannelNotFound(channel, "failed to get channel statistics")))
      ensures !req.fromShardLeader && channel in delegators ==>
        var got := delegators[channel].getStatistics(req);
        (got.Err? ==> reply == Reply(FailureResponse(got.error))) &&
        (got.Ok? && Reduced(got.value).Ok? ==> reply == Reply(Reduced(got.value).value))
    {
      unpinned := [];
      if req.fromShardLeader {
        var read := LeaderStats(req);
        if read.Err? {
          return Failed(read.error), [];
        }
        var resp := SegmentStatsResponse(read.value.stats);
        return Reply(resp), read.value.pinned;
      }
      if channel !in delegators {
        var err := ChannelNotFound(channel, "failed to get channel statistics");
        return Reply(FailureResponse(err)), [];
      }
      var results := delegators[channel].getStatistics(req);
      if results.Err? {
        return Reply(FailureResponse(results.error)), [];
      }
      var resp := ReduceStatisticResponse(results.value);
      if resp.Err? {
        // resp is now nil: assigning resp.Status dereferences it
        return NilDereference, [];
      }
      return Reply(resp.value), [];
    }
  }
}
