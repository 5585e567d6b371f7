/** Segment load orchestration on the channel-watch and load-segments control
    paths: which growing segments are handed to the delegator, and which items
    of a load-segments request the delta-log and index loaders are run on. */
module SegmentLoad {
  import opened Common
  import opened Messages

  /** An unflushed segment is loaded as growing when its info is listed in the
      watch request and has at least one binlog. */
  predicate Eligible(segmentInfos: map<SegmentId, SegmentInfo>, id: SegmentId) {
    id in segmentInfos && |segmentInfos[id].binlogs| > 0
  }

  /** The load info built for a growing segment: every field is copied from
      the listed info (note that the ID is the info's own, not the map key). */
  function ToLoadInfo(info: SegmentInfo): SegmentLoadInfo {
    SegmentLoadInfo(
      segmentId := info.id,
      partitionId := info.partitionId,
      collectionId := info.collectionId,
      binlogPaths := info.binlogs,
      numOfRows := info.numOfRows,
      statslogs := info.statslogs,
      deltalogs := info.deltalogs,
      insertChannel := info.insertChannel)
  }

  /** Every unflushed segment ID of the request: channel by channel, each
      channel's IDs in order, duplicates kept. */
  function UnflushedIds(infos: seq<VchannelInfo>): seq<SegmentId> {
    if infos == [] then []
    else UnflushedIds(infos[..|infos| - 1]) + infos[|infos| - 1].unflushedSegmentIds
  }

  /** The growing-segment batch built from a list of IDs, one ID at a time. */
  function Collect(segmentInfos: map<SegmentId, SegmentInfo>, ids: seq<SegmentId>): seq<SegmentLoadInfo> {
    if ids == [] then []
    else
      var id := ids[|ids| - 1];
      Collect(segmentInfos, ids[..|ids| - 1])
        + (if Eligible(segmentInfos, id) then [ToLoadInfo(segmentInfos[id])] else [])
  }

  lemma CollectSnoc(segmentInfos: map<SegmentId, SegmentInfo>, ids: seq<SegmentId>, id: SegmentId)
    ensures Collect(segmentInfos, ids + [id])
         == Collect(segmentInfos, ids) + (if Eligible(segmentInfos, id) then [ToLoadInfo(segmentInfos[id])] else [])
  {
    assert (ids + [id])[..|ids|] == ids;
  }

  lemma UnflushedIdsSnoc(infos: seq<VchannelInfo>, i: nat)
    requires i < |infos|
    ensures UnflushedIds(infos[..i + 1]) == UnflushedIds(infos[..i]) + infos[i].unflushedSegmentIds
  {
    assert infos[..i + 1][..i] == infos[..i];
  }

  /** The batch loadGrowingSegments hands to the delegator. */
  function GrowingBatch(req: WatchDmChannelsRequest): seq<SegmentLoadInfo> {
    Collect(req.segmentInfos, UnflushedIds(req.infos))
  }

  /** Reference definition: the eligible IDs, one per occurrence, in order. */
  function EligibleIds(segmentInfos: map<SegmentId, SegmentInfo>, ids: seq<SegmentId>): (r: seq<SegmentId>)
    ensures forall i :: 0 <= i < |r| ==> r[i] in ids && Eligible(segmentInfos, r[i])
  {
    if ids == [] then []
    else (if Eligible(segmentInfos, ids[0]) then [ids[0]] else []) + EligibleIds(segmentInfos, ids[1..])
  }

  lemma {:induction false} EligibleIdsSnoc(segmentInfos: map<SegmentId, SegmentInfo>, ids: seq<SegmentId>, id: SegmentId)
    ensures EligibleIds(segmentInfos, ids + [id])
         == EligibleIds(segmentInfos, ids) + (if Eligible(segmentInfos, id) then [id] else [])
  {
    if ids != [] {
      assert (ids + [id])[1..] == ids[1..] + [id];
      EligibleIdsSnoc(segmentInfos, ids[1..], id);
    }
  }

  /** The batch is the eligible IDs, in order, each turned into the load info
      of its listed segment; missing and binlog-less IDs contribute nothing. */
  lemma {:induction false} CollectIsFilterMap(segmentInfos: map<SegmentId, SegmentInfo>, ids: seq<SegmentId>)
    ensures |Collect(segmentInfos, ids)| == |EligibleIds(segmentInfos, ids)|
    ensures forall k :: 0 <= k < |Collect(segmentInfos, ids)| ==>
      Collect(segmentInfos, ids)[k] == ToLoadInfo(segmentInfos[EligibleIds(segmentInfos, ids)[k]])
  {
    if ids != [] {
      var init, id := ids[..|ids| - 1], ids[|ids| - 1];
      assert ids == init + [id];
      CollectIsFilterMap(segmentInfos, init);
      EligibleIdsSnoc(segmentInfos, init, id);
    }
  }

  /** No deduplication: an eligible ID occurs among the eligible IDs exactly
      as often as it is listed, an ineligible one never. */
  lemma {:induction false} EligibleIdsOccurrences(segmentInfos: map<SegmentId, SegmentInfo>, ids: seq<SegmentId>, id: SegmentId)
    ensures multiset(EligibleIds(segmentInfos, ids))[id]
         == if Eligible(segmentInfos, id) then multiset(ids)[id] else 0
  {
    if ids != [] {
      assert ids == [ids[0]] + ids[1..];
      EligibleIdsOccurrences(segmentInfos, ids[1..], id);
    }
  }

  /** The growing batch of a watch request, stated entry by entry: the k-th
      entry is built from the k-th eligible unflushed ID, and each ID yields
      exactly as many entries as it has occurrences when it is eligible, and
      none otherwise. */
  lemma GrowingBatchContents(req: WatchDmChannelsRequest, id: SegmentId)
    ensures var ids := EligibleIds(req.segmentInfos, UnflushedIds(req.infos));
      |GrowingBatch(req)| == |ids| &&
      (forall k :: 0 <= k < |ids| ==> GrowingBatch(req)[k] == ToLoadInfo(req.segmentInfos[ids[k]])) &&
      multiset(ids)[id] == if Eligible(req.segmentInfos, id) then multiset(UnflushedIds(req.infos))[id] else 0
  {
    CollectIsFilterMap(req.segmentInfos, UnflushedIds(req.infos));
    EligibleIdsOccurrences(req.segmentInfos, UnflushedIds(req.infos), id);
  }

  /** A watch request none of whose unflushed segments is listed with a
      binlog (say, segment 7 with zero binlogs) loads an empty batch. */
  lemma NothingEligibleEmptyBatch(req: WatchDmChannelsRequest)
    requires forall id :: id in UnflushedIds(req.infos) ==> !Eligible(req.segmentInfos, id)
    ensures GrowingBatch(req) == []
  {
    CollectIsFilterMap(req.segmentInfos, UnflushedIds(req.infos));
    var ids := EligibleIds(req.segmentInfos, UnflushedIds(req.infos));
    if ids != [] {
      assert ids[0] in UnflushedIds(req.infos);
      assert false;
    }
  }

  /** Collecting from two lists of IDs is collecting from each in turn. */
  lemma {:induction false} CollectAppend(segmentInfos: map<SegmentId, SegmentInfo>, a: seq<SegmentId>, b: seq<SegmentId>)
    ensures Collect(segmentInfos, a + b) == Collect(segmentInfos, a) + Collect(segmentInfos, b)
    decreases |b|
  {
    if b == [] {
      assert a + b == a;
    } else {
      var init, id := b[..|b| - 1], b[|b| - 1];
      assert a + b == (a + init) + [id];
      CollectAppend(segmentInfos, a, init);
      CollectSnoc(segmentInfos, a + init, id);
      assert b == init + [id];
      CollectSnoc(segmentInfos, init, id);
    }
  }

  /** loadGrowingSegments: walk every channel's unflushed IDs, skip those not
      listed or without binlogs, collect the rest, then make exactly one
      LoadGrowing call, recorded in calls, with that batch and the request's
      version and return its error unchanged. */
  method LoadGrowingSegments(delegator: Delegator, req: WatchDmChannelsRequest)
    returns (err: Option<Error>, batch: seq<SegmentLoadInfo>, ghost calls: seq<(seq<SegmentLoadInfo>, int)>)
    ensures batch == GrowingBatch(req)
    ensures calls == [(batch, req.version)]
    ensures err == delegator.loadGrowing(batch, req.version)
  {
    batch := [];
    for i := 0 to |req.infos|
      invariant batch == Collect(req.segmentInfos, UnflushedIds(req.infos[..i]))
    {
      ghost var before := UnflushedIds(req.infos[..i]);
      batch := CollectChannel(req.segmentInfos, batch, req.infos[i].unflushedSegmentIds);
      CollectAppend(req.segmentInfos, before, req.infos[i].unflushedSegmentIds);
      UnflushedIdsSnoc(req.infos, i);
    }
    assert req.infos[..|req.infos|] == req.infos;
    calls := [(batch, req.version)];
    err := delegator.loadGrowing(batch, req.version);
  }

  /** The inner loop of loadGrowingSegments over one channel's unflushed IDs:
      the batch collected so far grows by the load infos of this channel's
      eligible IDs, in order. */
  method CollectChannel(segmentInfos: map<SegmentId, SegmentInfo>, collected: seq<SegmentLoadInfo>, ids: seq<SegmentId>)
    returns (batch: seq<SegmentLoadInfo>)
    ensures batch == collected + Collect(segmentInfos, ids)
  {
    batch := collected;
    assert ids[..0] == [];
    for j := 0 to |ids|
      invariant batch == collected + Collect(segmentInfos, ids[..j])
    {
      var segmentId := ids[j];
      assert ids[..j + 1] == ids[..j] + [segmentId];
      CollectSnoc(segmentInfos, ids[..j], segmentId);
      if segmentId in segmentInfos {
        var segmentInfo := segmentInfos[segmentId];
        if |segmentInfo.binlogs| > 0 {
          batch := batch + [ToLoadInfo(segmentInfo)];
        }
        // otherwise: binlog is empty, logged and skipped
      }
      // otherwise: not found in the segment infos, logged and skipped
    }
    assert ids[..|ids|] == ids;
  }

  /** Positions of the items whose segment the manager finds sealed: the
      items the delta-log loader is run on (SealedPositionsSpec). */
  function SealedPositions(infos: seq<SegmentLoadInfo>, sealed: map<SegmentId, SegmentKind>): (ps: seq<nat>)
    ensures forall a :: 0 <= a < |ps| ==> ps[a] < |infos|
  {
    if infos == [] then []
    else
      SealedPositions(infos[..|infos| - 1], sealed)
        + (if infos[|infos| - 1].segmentId in sealed then [|infos| - 1] else [])
  }

  /** Every item whose segment is sealed, and no other, is listed, once, in
      increasing order. */
  lemma {:induction false} SealedPositionsSpec(infos: seq<SegmentLoadInfo>, sealed: map<SegmentId, SegmentKind>)
    ensures var ps := SealedPositions(infos, sealed);
      (forall k :: k in ps <==> 0 <= k < |infos| && infos[k].segmentId in sealed) &&
      (forall a, b :: 0 <= a < b < |ps| ==> ps[a] < ps[b])
  {
    if infos != [] {
      var init := infos[..|infos| - 1];
      SealedPositionsSpec(init, sealed);
      assert forall k :: 0 <= k < |init| ==> init[k] == infos[k];
    }
  }

  /** Positions of the items whose segment the manager finds sealed AND
      local: the items the index loader may be run on (LocalPositionsSpec). */
  function LocalPositions(infos: seq<SegmentLoadInfo>, sealed: map<SegmentId, SegmentKind>): (ps: seq<nat>)
    ensures forall a :: 0 <= a < |ps| ==> ps[a] < |infos|
  {
    if infos == [] then []
    else
      var id := infos[|infos| - 1].segmentId;
      LocalPositions(infos[..|infos| - 1], sealed)
        + (if id in sealed && sealed[id] == LocalSegment then [|infos| - 1] else [])
  }

  /** Every item whose segment is sealed and local, and no other, is listed,
      once, in increasing order. */
  lemma {:induction false} LocalPositionsSpec(infos: seq<SegmentLoadInfo>, sealed: map<SegmentId, SegmentKind>)
    ensures var ps := LocalPositions(infos, sealed);
      (forall k :: k in ps <==>
         0 <= k < |infos| && infos[k].segmentId in sealed && sealed[infos[k].segmentId] == LocalSegment) &&
      (forall a, b :: 0 <= a < b < |ps| ==> ps[a] < ps[b])
  {
    if infos != [] {
      var init := infos[..|infos| - 1];
      LocalPositionsSpec(init, sealed);
      assert forall k :: 0 <= k < |init| ==> init[k] == infos[k];
    }
  }

  /** Taking one more item adds its position when its segment is sealed. */
  lemma SealedPositionsStep(infos: seq<SegmentLoadInfo>, sealed: map<SegmentId, SegmentKind>, i: nat)
    requires i < |infos|
    ensures SealedPositions(infos[..i + 1], sealed)
         == SealedPositions(infos[..i], sealed) + (if infos[i].segmentId in sealed then [i] else [])
  {
    assert infos[..i + 1][..i] == infos[..i];
  }

  /** Taking one more item adds its position when its segment is sealed and
      local. */
  lemma LocalPositionsStep(infos: seq<SegmentLoadInfo>, sealed: map<SegmentId, SegmentKind>, i: nat)
    requires i < |infos|
    ensures LocalPositions(infos[..i + 1], sealed)
         == LocalPositions(infos[..i], sealed)
              + (if infos[i].segmentId in sealed && sealed[infos[i].segmentId] == LocalSegment then [i] else [])
  {
    assert infos[..i + 1][..i] == infos[..i];
  }

  /** The positions found among the first i items are a prefix of those found
      among all of them. */
  lemma {:induction false} LocalPositionsPrefix(infos: seq<SegmentLoadInfo>, sealed: map<SegmentId, SegmentKind>, i: nat)
    requires i <= |infos|
    ensures LocalPositions(infos[..i], sealed) <= LocalPositions(infos, sealed)
    decreases |infos|
  {
    if i < |infos| {
      var init := infos[..|infos| - 1];
      assert init[..i] == infos[..i];
      LocalPositionsPrefix(init, sealed, i);
    } else {
      assert infos[..i] == infos;
    }
  }
}
