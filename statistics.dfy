/** The statistics reduction engine: the per-segment row-count sum a shard
    leader reports, and the merge of several partial statistics responses
    through a registry that maps each known field to its merge function. */
module Statistics {
  import opened Common
  import opened Decimal
  import opened Messages

  const RowCountKey: string := "row_count"

  /** The exact, unbounded total of the segments' row counts. */
  function TotalRows(segStats: seq<SegmentStats>): int {
    if segStats == [] then 0
    else TotalRows(segStats[..|segStats| - 1]) + segStats[|segStats| - 1].rowCount
  }

  /** The statistics pairs that report one row count. */
  function RowCountStats(rowCount: Int64): seq<KeyValuePair> {
    [KeyValuePair(RowCountKey, FormatInt(rowCount))]
  }

  /** segmentStatsResponse: always a success carrying the single field
      row_count, whose text is the int64 the running sum ends at, which is the
      exact total wrapped modulo 2^64 (and the exact total when it fits). */
  method SegmentStatsResponse(segStats: seq<SegmentStats>) returns (r: StatisticsResponse)
    ensures r == StatisticsResponse(Success, RowCountStats(Wrap64(TotalRows(segStats))))
  {
    var totalRowNum: Int64 := 0;
    for i := 0 to |segStats|
      invariant totalRowNum == Wrap64(TotalRows(segStats[..i]))
    {
      assert segStats[..i + 1][..i] == segStats[..i];
      WrapAdd(TotalRows(segStats[..i]), segStats[i].rowCount);
      totalRowNum := Wrap64(totalRowNum + segStats[i].rowCount);
    }
    assert segStats[..|segStats|] == segStats;
    r := StatisticsResponse(Success, RowCountStats(totalRowNum));
  }

  /** The merge accumulator: one value per registered field, seeded at 0. */
  datatype Merged = Merged(rowCount: Int64)

  const InitialMerged: Merged := Merged(0)

  /** A field's merge function: fold one textual value into the accumulator. */
  type MergeFn = (Merged, string) -> Result<Merged>

  /** Merging a row_count value: parse it as a base-10 int64 and add it to the
      running count with int64 wrap-around; a text ParseInt rejects is the
      error. */
  function MergeRowCount(acc: Merged, value: string): Result<Merged> {
    match ParseInt(value)
    case ParseError(e) => Err(ParseFailure(e))
    case ParsedInt(count) => Ok(Merged(Wrap64(acc.rowCount + count)))
  }

  /** The field registry: every statistics key the reduction understands. */
  const FieldMethods: map<string, MergeFn> := map[RowCountKey := MergeRowCount]

  /** The accumulator printed back as statistics pairs. */
  function MergedStats(m: Merged): seq<KeyValuePair> {
    RowCountStats(m.rowCount)
  }

  /** Every pair of every partial response, in order. */
  function AllPairs(results: seq<StatisticsResponse>): seq<KeyValuePair> {
    if results == [] then []
    else AllPairs(results[..|results| - 1]) + results[|results| - 1].stats
  }

  /** One pair folded in: an unregistered key fails, a registered one is
      merged by its field's function. */
  function MergePair(acc: Merged, pair: KeyValuePair): Result<Merged> {
    if pair.key !in FieldMethods then Err(UnknownStatisticField(pair.key))
    else FieldMethods[pair.key](acc, pair.value)
  }

  /** Pairs folded in left to right; the first failure ends the fold. */
  function MergePairs(acc: Merged, pairs: seq<KeyValuePair>): Result<Merged> {
    if pairs == [] then Ok(acc)
    else
      match MergePairs(acc, pairs[..|pairs| - 1])
      case Err(e) => Err(e)
      case Ok(m) => MergePair(m, pairs[|pairs| - 1])
  }

  /** What reduceStatisticResponse returns for a list of partial responses. */
  function Reduced(results: seq<StatisticsResponse>): Result<StatisticsResponse> {
    match MergePairs(InitialMerged, AllPairs(results))
    case Err(e) => Err(e)
    case Ok(m) => Ok(StatisticsResponse(Success, MergedStats(m)))
  }

  lemma {:induction false} AllPairsAppend(a: seq<StatisticsResponse>, b: seq<StatisticsResponse>)
    ensures AllPairs(a + b) == AllPairs(a) + AllPairs(b)
    decreases |b|
  {
    if b == [] {
      assert a + b == a;
    } else {
      var init := b[..|b| - 1];
      assert (a + b)[..|a + b| - 1] == a + init;
      AllPairsAppend(a, init);
    }
  }

  lemma {:induction false} MergePairsAppend(acc: Merged, xs: seq<KeyValuePair>, ys: seq<KeyValuePair>)
    ensures MergePairs(acc, xs + ys) ==
      match MergePairs(acc, xs)
      case Err(e) => Err(e)
      case Ok(m) => MergePairs(m, ys)
    decreases |ys|
  {
    if ys == [] {
      assert xs + ys == xs;
    } else {
      var init := ys[..|ys| - 1];
      assert (xs + ys)[..|xs + ys| - 1] == xs + init;
      MergePairsAppend(acc, xs, init);
    }
  }

  /** Folding one more pair: the fold so far, then that pair. */
  lemma MergePairsSnoc(acc: Merged, init: seq<KeyValuePair>, last: KeyValuePair)
    ensures MergePairs(acc, init + [last]) ==
      match MergePairs(acc, init)
      case Err(e) => Err(e)
      case Ok(m) => MergePair(m, last)
  {
    assert (init + [last])[..|init|] == init;
  }

  /** Once the pairs of the first responses fail to merge, the whole
      reduction fails with that same error. */
  lemma MergeAborts(results: seq<StatisticsResponse>, i: nat)
    requires i <= |results|
    requires MergePairs(InitialMerged, AllPairs(results[..i])).Err?
    ensures Reduced(results) == Err(MergePairs(InitialMerged, AllPairs(results[..i])).error)
  {
    assert results == results[..i] + results[i..];
    AllPairsAppend(results[..i], results[i..]);
    MergePairsAppend(InitialMerged, AllPairs(results[..i]), AllPairs(results[i..]));
  }

  /** reduceStatisticResponse: fold every pair of every partial response into
      the accumulator through the field registry, stopping at the first
      unknown key or unparsable value; on success print the accumulator back. */
  method ReduceStatisticResponse(results: seq<StatisticsResponse>) returns (r: Result<StatisticsResponse>)
    ensures r == Reduced(results)
  {
    var mergedResults := InitialMerged;
    for i := 0 to |results|
      invariant MergePairs(InitialMerged, AllPairs(results[..i])) == Ok(mergedResults)
    {
      assert results[..i + 1][..i] == results[..i];
      MergePairsAppend(InitialMerged, AllPairs(results[..i]), results[i].stats);
      var merged := MergeResponseStats(mergedResults, results[i].stats);
      if merged.Err? {
        r := Err(merged.error);
        MergeAborts(results, i + 1);
        return;
      }
      mergedResults := merged.value;
    }
    assert results[..|results|] == results;
    r := Ok(StatisticsResponse(Success, MergedStats(mergedResults)));
  }

  /** The inner loop of reduceStatisticResponse over one partial response's
      pairs: each is merged by its key's registered function, and the first
      unknown key or failing merge ends the fold with its error. */
  method MergeResponseStats(acc: Merged, stats: seq<KeyValuePair>) returns (r: Result<Merged>)
    ensures r == MergePairs(acc, stats)
  {
    var mergedResults := acc;
    assert stats[..0] == [];
    for j := 0 to |stats|
      invariant MergePairs(acc, stats[..j]) == Ok(mergedResults)
    {
      var pair := stats[j];
      assert stats[..j + 1] == stats[..j] + [pair];
      MergePairsSnoc(acc, stats[..j], pair);
      if pair.key !in FieldMethods {
        r := Err(UnknownStatisticField(pair.key));
        MergeRest(acc, stats, j + 1);
        return;
      }
      var merged := FieldMethods[pair.key](mergedResults, pair.value);
      if merged.Err? {
        r := Err(merged.error);
        MergeRest(acc, stats, j + 1);
        return;
      }
      mergedResults := merged.value;
    }
    assert stats[..|stats|] == stats;
    r := Ok(mergedResults);
  }

  /** A fold that has failed on a prefix of a response's pairs stays failed
      over the rest of them. */
  lemma MergeRest(acc: Merged, stats: seq<KeyValuePair>, j: nat)
    requires j <= |stats|
    requires MergePairs(acc, stats[..j]).Err?
    ensures MergePairs(acc, stats) == MergePairs(acc, stats[..j])
  {
    assert stats == stats[..j] + stats[j..];
    MergePairsAppend(acc, stats[..j], stats[j..]);
  }

  /** A pair the registry accepts: a registered key with a parsable value. */
  predicate Mergeable(pair: KeyValuePair) {
    pair.key == RowCountKey && ParseInt(pair.value).ParsedInt?
  }

  /** The error an unmergeable pair stops the reduction with. */
  function PairError(pair: KeyValuePair): Error
    requires !Mergeable(pair)
  {
    if pair.key != RowCountKey then UnknownStatisticField(pair.key)
    else ParseFailure(ParseInt(pair.value).error)
  }

  /** The exact total of the parsed values of the pairs (an unparsable value
      adds nothing; the total is only used when every pair is mergeable). */
  function ParsedTotal(pairs: seq<KeyValuePair>): int {
    if pairs == [] then 0
    else
      var parsed := ParseInt(pairs[|pairs| - 1].value);
      ParsedTotal(pairs[..|pairs| - 1]) + (if parsed.ParsedInt? then parsed.value else 0)
  }

  /** Folding one more mergeable pair adds its parsed value, with int64
      wrap-around, to the exact running total. */
  lemma MergeStep(acc: Merged, pairs: seq<KeyValuePair>, before: int)
    requires pairs != []
    requires MergePairs(acc, pairs[..|pairs| - 1]) == Ok(Merged(Wrap64(before)))
    requires Mergeable(pairs[|pairs| - 1])
    ensures MergePairs(acc, pairs) == Ok(Merged(Wrap64(before + ParseInt(pairs[|pairs| - 1].value).value)))
  {
    var last := pairs[|pairs| - 1];
    MergeOneMergeable(Merged(Wrap64(before)), last);
    WrapAdd(before, ParseInt(last.value).value);
  }

  /** A mergeable pair adds its parsed value with int64 wrap-around. */
  lemma MergeOneMergeable(m: Merged, pair: KeyValuePair)
    requires Mergeable(pair)
    ensures MergePair(m, pair) == Ok(Merged(Wrap64(m.rowCount + ParseInt(pair.value).value)))
  {
  }

  /** When every pair is mergeable the fold succeeds and adds their exact
      total, wrapped to int64, to the accumulator. */
  lemma {:induction false} MergeAllMergeable(acc: Merged, pairs: seq<KeyValuePair>)
    requires forall p :: p in pairs ==> Mergeable(p)
    ensures MergePairs(acc, pairs) == Ok(Merged(Wrap64(acc.rowCount + ParsedTotal(pairs))))
    decreases |pairs|
  {
    if pairs != [] {
      var init, last := pairs[..|pairs| - 1], pairs[|pairs| - 1];
      assert last in pairs;
      MergeAllMergeable(acc, init);
      MergeStep(acc, pairs, acc.rowCount + ParsedTotal(init));
      assert ParsedTotal(pairs) == ParsedTotal(init) + ParseInt(last.value).value;
    }
  }

  /** The fold stops at the first unmergeable pair, with that pair's error. */
  lemma MergeStopsAt(acc: Merged, pairs: seq<KeyValuePair>, k: nat)
    requires k < |pairs| && !Mergeable(pairs[k])
    requires forall i :: 0 <= i < k ==> Mergeable(pairs[i])
    ensures MergePairs(acc, pairs) == Err(PairError(pairs[k]))
  {
    var prefix := pairs[..k];
    assert forall p :: p in prefix ==> Mergeable(p);
    MergeAllMergeable(acc, prefix);
    assert pairs[..k + 1][..k] == prefix;
    var m := Merged(Wrap64(acc.rowCount + ParsedTotal(prefix)));
    assert MergePair(m, pairs[k]) == Err(PairError(pairs[k]));
    assert MergePairs(acc, pairs[..k + 1]) == Err(PairError(pairs[k]));
    assert pairs == pairs[..k + 1] + pairs[k + 1..];
    MergePairsAppend(acc, pairs[..k + 1], pairs[k + 1..]);
  }

  /** The position of the first unmergeable pair. */
  function FirstUnmergeable(pairs: seq<KeyValuePair>): (k: nat)
    requires exists p :: p in pairs && !Mergeable(p)
    ensures k < |pairs| && !Mergeable(pairs[k])
    ensures forall i :: 0 <= i < k ==> Mergeable(pairs[i])
  {
    if !Mergeable(pairs[0]) then 0
    else
      var p :| p in pairs && !Mergeable(p);
      assert p in pairs[1..];
      1 + FirstUnmergeable(pairs[1..])
  }

  /** The reduction succeeds exactly when every pair of every partial
      response has a registered key and a parsable value, and it then reports
      the exact sum of all row_count values wrapped to int64 (the partial
      statuses are not looked at). */
  lemma ReducedSucceeds(results: seq<StatisticsResponse>)
    ensures (forall p :: p in AllPairs(results) ==> Mergeable(p)) <==> Reduced(results).Ok?
    ensures Reduced(results).Ok? ==>
      Reduced(results).value == StatisticsResponse(Success, RowCountStats(Wrap64(ParsedTotal(AllPairs(results)))))
  {
    var pairs := AllPairs(results);
    if forall p :: p in pairs ==> Mergeable(p) {
      MergeAllMergeable(InitialMerged, pairs);
    } else {
      MergeStopsAt(InitialMerged, pairs, FirstUnmergeable(pairs));
    }
  }

  /** Otherwise it fails with the first offending pair's error and yields no
      response. */
  lemma ReducedFails(results: seq<StatisticsResponse>)
    requires exists p :: p in AllPairs(results) && !Mergeable(p)
    ensures Reduced(results) == Err(PairError(AllPairs(results)[FirstUnmergeable(AllPairs(results))]))
  {
    MergeStopsAt(InitialMerged, AllPairs(results), FirstUnmergeable(AllPairs(results)));
  }

  /** Reducing a single response that reports a row count, whatever its
      status, gives that same row_count: in particular reducing the response
      segmentStatsResponse builds reproduces its statistics. */
  lemma ReduceSingleRowCount(status: Status, rowCount: Int64)
    ensures Reduced([StatisticsResponse(status, RowCountStats(rowCount))])
         == Ok(StatisticsResponse(Success, RowCountStats(rowCount)))
  {
    var results := [StatisticsResponse(status, RowCountStats(rowCount))];
    assert results[..0] == [];
    assert AllPairs(results) == RowCountStats(rowCount);
    ParseFormat(rowCount);
    var pair := KeyValuePair(RowCountKey, FormatInt(rowCount));
    assert AllPairs(results) == [pair];
    assert [pair][..0] == [];
    Wrap64Congruent(rowCount);
    assert MergePair(InitialMerged, pair) == MergeRowCount(InitialMerged, pair.value);
    assert MergePairs(InitialMerged, [pair]) == Ok(Merged(rowCount));
  }

  /** reduce([{row_count: "3"}, {row_count: "4"}]) == {row_count: "7"}. */
  lemma ReduceThreeAndFour()
    ensures Reduced([StatisticsResponse(Success, [KeyValuePair("row_count", "3")]),
                     StatisticsResponse(Success, [KeyValuePair("row_count", "4")])])
         == Ok(StatisticsResponse(Success, [KeyValuePair("row_count", "7")]))
  {
    var results := [StatisticsResponse(Success, [KeyValuePair("row_count", "3")]),
                    StatisticsResponse(Success, [KeyValuePair("row_count", "4")])];
    assert results[..1][..0] == [] && results[..1] == [results[0]];
    assert AllPairs(results) == [KeyValuePair("row_count", "3"), KeyValuePair("row_count", "4")];
    assert ScanUint("3") == Scanned(3) by { assert "3"[..0] == []; }
    assert ScanUint("4") == Scanned(4) by { assert "4"[..0] == []; }
    Wrap64Congruent(3);
    Wrap64Congruent(7);
    assert FormatInt(7) == "7";
  }

  /** reduce([{unknown_field: "x"}]) fails with an unknown-field error. */
  lemma ReduceUnknownField()
    ensures Reduced([StatisticsResponse(Success, [KeyValuePair("unknown_field", "x")])])
         == Err(UnknownStatisticField("unknown_field"))
  {
    var results := [StatisticsResponse(Success, [KeyValuePair("unknown_field", "x")])];
    assert results[..0] == [];
    assert AllPairs(results) == [KeyValuePair("unknown_field", "x")];
    assert "unknown_field" != RowCountKey by { assert |"unknown_field"| != |RowCountKey|; }
  }
}
