/** The dashboard's record processing (lib/dashboard-data.ts): extracting
    the detection result from a trace's observations, walking the trace
    list in batches of five, and counting the statistics the summary cards
    show. Fetching a trace and its detail is not modelled: the per-record
    processing is a parameter. */
module DashboardData {
  import opened Common
  import opened JsonModel

  /** A detection result as stored in a trace: the output object itself,
      known to have `overallRisk` and `blocked` keys when extracted. */
  type AITaskResult = map<string, Json>

  datatype ProcessedRecord = ProcessedRecord(
    id: string,
    taskType: string,
    aiResult: Option<AITaskResult>,
    rawData: Json)

  datatype SectionCardStats = SectionCardStats(
    totalRecords: nat,
    lowRiskCount: nat,
    mediumRiskCount: nat,
    highRiskCount: nat,
    blockedCount: nat)

  // ---------------------------------------------------- extractAIResult

  /** The `find` test: an object (not null, not an array) whose `type` is
      the string 'GENERATION'. */
  predicate IsGeneration(obs: Json) {
    obs.JObj? && Get(obs, "type") == Some(JStr("GENERATION"))
  }

  /** The position of the first generation observation. */
  function FirstGeneration(observations: seq<Json>): (r: Option<nat>)
    ensures r.None? <==> forall i :: 0 <= i < |observations| ==> !IsGeneration(observations[i])
    ensures r.Some? ==>
      r.value < |observations| && IsGeneration(observations[r.value]) &&
      (forall i :: 0 <= i < r.value ==> !IsGeneration(observations[i]))
    decreases |observations|
  {
    if |observations| == 0 then None
    else if IsGeneration(observations[0]) then Some(0)
    else match FirstGeneration(observations[1..])
      case None => None
      case Some(i) => Some(i + 1)
  }

  /** The guard on the observation's output: an object with both keys. */
  function OutputResult(obs: Json): (r: Option<AITaskResult>)
    ensures r.Some? <==> (match Get(obs, "output")
                          case Some(JObj(m)) => "overallRisk" in m && "blocked" in m
                          case _ => false)
  {
    match Get(obs, "output")
    case Some(JObj(m)) => if "overallRisk" in m && "blocked" in m then Some(m) else None
    case _ => None
  }

  /** `extractAIResult`: null for a non-array, for an array without a
      generation observation, and when that observation's output lacks
      either key; otherwise the output object. */
  function ExtractAIResult(observations: Json): (r: Option<AITaskResult>)
    ensures r.Some? ==> "overallRisk" in r.value && "blocked" in r.value
    ensures !observations.JArr? ==> r.None?
  {
    if !observations.JArr? then None
    else match FirstGeneration(observations.items)
      case None => None
      case Some(i) => OutputResult(observations.items[i])
  }

  /** Only the first generation observation counts: whatever precedes it is
      not a generation, and whatever follows it is never looked at. */
  lemma OnlyFirstGenerationCounts(before: seq<Json>, g: Json, after1: seq<Json>, after2: seq<Json>)
    requires forall i :: 0 <= i < |before| ==> !IsGeneration(before[i])
    requires IsGeneration(g)
    ensures ExtractAIResult(JArr(before + [g] + after1)) == OutputResult(g)
    ensures ExtractAIResult(JArr(before + [g] + after1)) == ExtractAIResult(JArr(before + [g] + after2))
  {
    var s1, s2 := before + [g] + after1, before + [g] + after2;
    assert s1[|before|] == g && s2[|before|] == g;
    assert forall i :: 0 <= i < |before| ==> s1[i] == before[i] && s2[i] == before[i];
  }

  /** Without a generation observation there is no result. */
  lemma NoGenerationNoResult(observations: seq<Json>)
    requires forall i :: 0 <= i < |observations| ==> !IsGeneration(observations[i])
    ensures ExtractAIResult(JArr(observations)).None?
  {
  }

  // ----------------------------------------------- fetchAndProcessRecords

  /** The records that processing keeps, in record order. */
  function ProcessAll(records: seq<Json>, process: Json -> Option<ProcessedRecord>): (r: seq<ProcessedRecord>)
    ensures |r| <= |records|
    decreases |records|
  {
    if |records| == 0 then []
    else
      var prev := ProcessAll(records[..|records| - 1], process);
      match process(records[|records| - 1])
      case None => prev
      case Some(p) => prev + [p]
  }

  /** Processing a list in two parts processes each part in turn. */
  lemma {:induction false} ProcessAllAppend(xs: seq<Json>, ys: seq<Json>, process: Json -> Option<ProcessedRecord>)
    ensures ProcessAll(xs + ys, process) == ProcessAll(xs, process) + ProcessAll(ys, process)
    decreases |ys|
  {
    if |ys| > 0 {
      var init := ys[..|ys| - 1];
      assert (xs + ys)[..|xs + ys| - 1] == xs + init;
      ProcessAllAppend(xs, init, process);
    } else {
      assert xs + ys == xs;
    }
  }

  /** When every record is processed, the result is the processed list,
      one per record, in order. */
  lemma {:induction false} ProcessAllTotal(records: seq<Json>, process: Json -> Option<ProcessedRecord>)
    requires forall i :: 0 <= i < |records| ==> process(records[i]).Some?
    ensures |ProcessAll(records, process)| == |records|
    ensures forall i :: 0 <= i < |records| ==> ProcessAll(records, process)[i] == process(records[i]).value
    decreases |records|
  {
    if |records| > 0 {
      ProcessAllTotal(records[..|records| - 1], process);
    }
  }

  /** `fetchAndProcessRecords` after the list is fetched: slices of five,
      each processed, the nulls dropped, appended in order. */
  method FetchAndProcessRecords(records: seq<Json>, process: Json -> Option<ProcessedRecord>)
    returns (processedRecords: seq<ProcessedRecord>)
    ensures processedRecords == ProcessAll(records, process)
  {
    if |records| == 0 {
      return [];
    }
    processedRecords := [];
    var batchSize := 5;
    var i := 0;
    while i < |records|
      invariant 0 <= i <= |records| || (i > |records| && i - batchSize < |records|)
      invariant processedRecords == ProcessAll(records[..if i < |records| then i else |records|], process)
      decreases |records| - i
    {
      var end := if i + batchSize < |records| then i + batchSize else |records|;
      var batch := records[i..end];
      var results := seq(|batch|, k requires 0 <= k < |batch| => process(batch[k]));
      var kept := KeepPresent(results);
      assert kept == ProcessAll(batch, process) by {
        KeepPresentIsProcessAll(batch, process);
      }
      ProcessAllAppend(records[..i], batch, process);
      assert records[..i] + batch == records[..end];
      processedRecords := processedRecords + kept;
      i := i + batchSize;
    }
    assert records[..|records|] == records;
  }

  /** `results.filter((r) => r !== null)` */
  function KeepPresent(results: seq<Option<ProcessedRecord>>): seq<ProcessedRecord>
    decreases |results|
  {
    if |results| == 0 then []
    else
      var prev := KeepPresent(results[..|results| - 1]);
      match results[|results| - 1]
      case None => prev
      case Some(p) => prev + [p]
  }

  lemma {:induction false} KeepPresentIsProcessAll(batch: seq<Json>, process: Json -> Option<ProcessedRecord>)
    ensures KeepPresent(seq(|batch|, k requires 0 <= k < |batch| => process(batch[k]))) == ProcessAll(batch, process)
    decreases |batch|
  {
    if |batch| > 0 {
      var init := batch[..|batch| - 1];
      KeepPresentIsProcessAll(init, process);
      assert seq(|batch|, k requires 0 <= k < |batch| => process(batch[k]))[..|batch| - 1] ==
        seq(|init|, k requires 0 <= k < |init| => process(init[k]));
    }
  }

  // ------------------------------------------------------ calculateStats

  /** `record.aiResult.overallRisk === level` for a record with a result. */
  predicate HasRisk(record: ProcessedRecord, level: string) {
    record.aiResult.Some? && "overallRisk" in record.aiResult.value &&
    record.aiResult.value["overallRisk"] == JStr(level)
  }

  /** A record with a result whose `blocked` is truthy. */
  predicate IsBlocked(record: ProcessedRecord) {
    record.aiResult.Some? && Truthy(Get(JObj(record.aiResult.value), "blocked"))
  }

  function CountRisk(records: seq<ProcessedRecord>, level: string): nat
    decreases |records|
  {
    if |records| == 0 then 0
    else CountRisk(records[..|records| - 1], level) + (if HasRisk(records[|records| - 1], level) then 1 else 0)
  }

  function CountBlocked(records: seq<ProcessedRecord>): nat
    decreases |records|
  {
    if |records| == 0 then 0
    else CountBlocked(records[..|records| - 1]) + (if IsBlocked(records[|records| - 1]) then 1 else 0)
  }

  /** `calculateStats`: the total is the length; each risk counter counts
      the records whose result names that level, the blocked counter those
      whose result is blocked. */
  method CalculateStats(records: seq<ProcessedRecord>) returns (stats: SectionCardStats)
    ensures stats.totalRecords == |records|
    ensures stats.lowRiskCount == CountRisk(records, "low")
    ensures stats.mediumRiskCount == CountRisk(records, "medium")
    ensures stats.highRiskCount == CountRisk(records, "high")
    ensures stats.blockedCount == CountBlocked(records)
  {
    stats := SectionCardStats(|records|, 0, 0, 0, 0);
    for i := 0 to |records|
      invariant stats.totalRecords == |records|
      invariant stats.lowRiskCount == CountRisk(records[..i], "low")
      invariant stats.mediumRiskCount == CountRisk(records[..i], "medium")
      invariant stats.highRiskCount == CountRisk(records[..i], "high")
      invariant stats.blockedCount == CountBlocked(records[..i])
    {
      assert records[..i + 1][..i] == records[..i];
      var record := records[i];
      if record.aiResult.Some? {
        var result := record.aiResult.value;
        if Truthy(Get(JObj(result), "blocked")) {
          stats := stats.(blockedCount := stats.blockedCount + 1);
        }
        var risk := Get(JObj(result), "overallRisk");
        if risk == Some(JStr("low")) {
          stats := stats.(lowRiskCount := stats.lowRiskCount + 1);
        } else if risk == Some(JStr("medium")) {
          stats := stats.(mediumRiskCount := stats.mediumRiskCount + 1);
        } else if risk == Some(JStr("high")) {
          stats := stats.(highRiskCount := stats.highRiskCount + 1);
        }
      }
    }
    assert records[..|records|] == records;
  }

  /** The three risk counters never add up to more than the total, and
      neither does the blocked counter: each record adds at most one to
      the risk counters and at most one to the blocked counter. */
  lemma {:induction false} CountsBounded(records: seq<ProcessedRecord>)
    ensures CountRisk(records, "low") + CountRisk(records, "medium") + CountRisk(records, "high") <= |records|
    ensures CountBlocked(records) <= |records|
    decreases |records|
  {
    if |records| > 0 {
      CountsBounded(records[..|records| - 1]);
    }
  }

  /** A record without a result adds to no counter. */
  lemma {:induction false} ResultlessRecordsNotCounted(records: seq<ProcessedRecord>, r: ProcessedRecord, level: string)
    requires r.aiResult.None?
    ensures CountRisk(records + [r], level) == CountRisk(records, level)
    ensures CountBlocked(records + [r]) == CountBlocked(records)
  {
    assert (records + [r])[..|records|] == records;
  }
}
