/**
 * Latency tracking for the voice pipeline: one append-only sample list per
 * named stage, a pending-start table for the start/stop convention, a summary
 * of per-stage statistics and the qualitative status of the estimated total.
 * Times are given by the caller (the clock is not modelled): start and stop
 * times in seconds, as the performance counter reports them; latencies in ms.
 */
module Metrics {
  import opened Wrappers
  import Stats

  /** One stage's latency samples, in the order they were recorded. */
  class StageMetrics {
    const name: string
    var latencies: seq<real>

    constructor (name: string)
      ensures this.name == name && latencies == []
    {
      this.name := name;
      latencies := [];
    }

    /** Appends one sample at the end. */
    method Add(latencyMs: real)
      modifies this
      ensures latencies == old(latencies) + [latencyMs]
      ensures Count() == old(Count()) + 1
    {
      latencies := latencies + [latencyMs];
    }

    function Count(): nat
      reads this
    {
      |latencies|
    }

    /** `mean`: 0 without samples. */
    function Mean(): (m: real)
      reads this
      ensures latencies == [] ==> m == 0.0
    {
      Stats.Mean(latencies)
    }

    /** `p50`: 0 without samples, otherwise one of them, never above p95. */
    function P50(): (r: real)
      reads this
      ensures latencies == [] ==> r == 0.0
      ensures latencies != [] ==> r in latencies
      ensures r <= Stats.P95(latencies)
    {
      Stats.PercentilesOrdered(latencies);
      Stats.P50(latencies)
    }

    /** `p95`: 0 without samples, otherwise one of them, never above p99. */
    function P95(): (r: real)
      reads this
      ensures latencies == [] ==> r == 0.0
      ensures latencies != [] ==> r in latencies
      ensures r <= Stats.P99(latencies)
    {
      Stats.PercentilesOrdered(latencies);
      Stats.P95(latencies)
    }

    /** `p99`: 0 without samples, otherwise one of them. */
    function P99(): (r: real)
      reads this
      ensures latencies == [] ==> r == 0.0
      ensures latencies != [] ==> r in latencies
    {
      Stats.P99(latencies)
    }
  }

  /** The statistics `get_summary` reports for one stage. */
  datatype StageSummary = StageSummary(count: nat, mean: real, p50: real, p95: real, p99: real)

  /** The summary entry of a stage holding the samples `s`. */
  function Summarize(s: seq<real>): (e: StageSummary)
    ensures e.count == |s|
    ensures s == [] ==> e == StageSummary(0, 0.0, 0.0, 0.0, 0.0)
    ensures s != [] ==> e.p50 in s && e.p95 in s && e.p99 in s
    ensures e.p50 <= e.p95 <= e.p99
  {
    Stats.PercentilesOrdered(s);
    StageSummary(|s|, Stats.Mean(s), Stats.P50(s), Stats.P95(s), Stats.P99(s))
  }

  /** The error `stop` raises for a stage with no pending start. */
  datatype TrackerError = ValueError(message: string)

  /** The qualitative verdict printed under the summary table. */
  datatype Status = Excellent | Good | Fair | Poor

  /** The style of the table's total row. */
  datatype RowStyle = BoldGreen | BoldYellow | BoldRed

  /** Verdict on the estimated end-to-end latency (the sum of the stage p50s, in ms). */
  function Classify(totalMs: real): (s: Status)
    ensures s == Excellent <==> totalMs < 300.0
    ensures s == Good <==> 300.0 <= totalMs < 500.0
    ensures s == Fair <==> 500.0 <= totalMs < 800.0
    ensures s == Poor <==> 800.0 <= totalMs
  {
    if totalMs < 300.0 then Excellent
    else if totalMs < 500.0 then Good
    else if totalMs < 800.0 then Fair
    else Poor
  }

  /** Style of the total row: green below 500 ms, yellow below 800 ms, red otherwise. */
  function TotalStyle(totalMs: real): (st: RowStyle)
    ensures st == BoldGreen <==> totalMs < 500.0
    ensures st == BoldRed <==> 800.0 <= totalMs
  {
    if totalMs < 500.0 then BoldGreen else if totalMs < 800.0 then BoldYellow else BoldRed
  }

  function Severity(s: Status): nat
  {
    match s
    case Excellent => 0
    case Good => 1
    case Fair => 2
    case Poor => 3
  }

  /** A larger total never gets a better verdict. */
  lemma ClassifyMonotone(a: real, b: real)
    requires a <= b
    ensures Severity(Classify(a)) <= Severity(Classify(b))
  {
  }

  /** The row colour agrees with the verdict: green for EXCELLENT and GOOD, yellow for FAIR, red for POOR. */
  lemma StyleAgreesWithStatus(totalMs: real)
    ensures TotalStyle(totalMs) == BoldGreen <==> Classify(totalMs) in {Excellent, Good}
    ensures TotalStyle(totalMs) == BoldYellow <==> Classify(totalMs) == Fair
    ensures TotalStyle(totalMs) == BoldRed <==> Classify(totalMs) == Poor
  {
  }

  /** The message `stop` raises for an unstarted stage. */
  function NotStartedMessage(stageName: string): (m: string)
  {
    "Stage '" + stageName + "' was not started"
  }

  /** What leaving a measured block did: it returned normally or raised. */
  datatype BlockExit<+E> = Completed | Raised(error: E)

  class LatencyTracker {
    /** Stage name to its metrics; keys are kept in insertion order by `order`. */
    var stages: map<string, StageMetrics>
    /** The keys of `stages` in insertion order (the iteration order of a Python dict). */
    var order: seq<string>
    /** Stage name to the time, in seconds, of its pending `start`. */
    var startTimes: map<string, real>

    ghost predicate Valid()
      reads this`stages, this`order
    {
      && (forall k :: k in stages ==> stages[k].name == k)
      && (forall i :: 0 <= i < |order| ==> order[i] in stages)
      && (forall k :: k in stages ==> k in order)
      && (forall i, j :: 0 <= i < j < |order| ==> order[i] != order[j])
    }

    /** The samples recorded for one stage, empty for an unseen one. */
    ghost function SamplesOf(stageName: string): seq<real>
      reads this`stages, stages.Values
    {
      if stageName in stages then stages[stageName].latencies else []
    }

    constructor ()
      ensures Valid()
      ensures stages == map[] && order == [] && startTimes == map[]
    {
      stages := map[];
      order := [];
      startTimes := map[];
    }

    /** `_record`: appends one sample to the named stage, creating the stage when unseen. */
    method Record(stageName: string, latencyMs: real)
      requires Valid()
      modifies this, stages.Values
      ensures Valid()
      ensures stages.Keys == old(stages.Keys) + {stageName}
      ensures stages[stageName].latencies == old(SamplesOf(stageName)) + [latencyMs]
      ensures stageName in old(stages) ==> stages[stageName] == old(stages[stageName])
      ensures stageName !in old(stages) ==> fresh(stages[stageName])
      ensures forall k :: k in old(stages) && k != stageName ==>
                stages[k] == old(stages[k]) && stages[k].latencies == old(stages[k].latencies)
      ensures order == if stageName in old(stages) then old(order) else old(order) + [stageName]
      ensures startTimes == old(startTimes)
    {
      if stageName !in stages {
        var m := new StageMetrics(stageName);
        stages := stages[stageName := m];
        order := order + [stageName];
      }
      var target := stages[stageName];
      target.Add(latencyMs);
    }

    /** `measure`: the block's elapsed time is recorded on every exit, and its exit is passed on. */
    method Measure<E>(stageName: string, startSeconds: real, endSeconds: real, block: BlockExit<E>)
      returns (exit: BlockExit<E>)
      requires Valid()
      modifies this, stages.Values
      ensures Valid()
      ensures exit == block
      ensures stages.Keys == old(stages.Keys) + {stageName}
      ensures stages[stageName].latencies == old(SamplesOf(stageName)) + [(endSeconds - startSeconds) * 1000.0]
      ensures stageName in old(stages) ==> stages[stageName] == old(stages[stageName])
      ensures stageName !in old(stages) ==> fresh(stages[stageName])
      ensures forall k :: k in old(stages) && k != stageName ==>
                stages[k] == old(stages[k]) && stages[k].latencies == old(stages[k].latencies)
      ensures order == if stageName in old(stages) then old(order) else old(order) + [stageName]
      ensures startTimes == old(startTimes)
    {
      Record(stageName, (endSeconds - startSeconds) * 1000.0);
      exit := block;
    }

    /** `start`: remembers the start time, replacing any pending one for that stage. */
    method Start(stageName: string, nowSeconds: real)
      requires Valid()
      modifies this
      ensures Valid()
      ensures startTimes == old(startTimes)[stageName := nowSeconds]
      ensures stages == old(stages) && order == old(order)
    {
      startTimes := startTimes[stageName := nowSeconds];
    }

    /**
     * `stop`: without a pending start it fails and changes nothing; otherwise it
     * removes the pending start, records the elapsed milliseconds and returns them.
     */
    method Stop(stageName: string, nowSeconds: real) returns (r: Result<real, TrackerError>)
      requires Valid()
      modifies this, stages.Values
      ensures Valid()
      ensures stageName !in old(startTimes) <==> r.Err?
      ensures r.Err? ==> r.error == ValueError(NotStartedMessage(stageName))
      ensures r.Err? ==> startTimes == old(startTimes) && stages == old(stages) && order == old(order)
                         && forall k :: k in stages ==> stages[k].latencies == old(stages[k].latencies)
      ensures r.Ok? ==> r.value == (nowSeconds - old(startTimes)[stageName]) * 1000.0
                        && startTimes == old(startTimes) - {stageName}
      ensures r.Ok? ==> stages.Keys == old(stages.Keys) + {stageName}
                        && stages[stageName].latencies == old(SamplesOf(stageName)) + [r.value]
      ensures r.Ok? && stageName in old(stages) ==> stages[stageName] == old(stages[stageName])
      ensures r.Ok? && stageName !in old(stages) ==> fresh(stages[stageName])
      ensures r.Ok? ==> forall k :: k in old(stages) && k != stageName ==>
                          stages[k] == old(stages[k]) && stages[k].latencies == old(stages[k].latencies)
      ensures r.Ok? ==> order == if stageName in old(stages) then old(order) else old(order) + [stageName]
    {
      if stageName !in startTimes {
        return Err(ValueError(NotStartedMessage(stageName)));
      }
      var latencyMs := (nowSeconds - startTimes[stageName]) * 1000.0;
      startTimes := startTimes - {stageName};
      Record(stageName, latencyMs);
      r := Ok(latencyMs);
    }

    /** `get_summary`: one entry per stage, the stage's count, mean and percentiles. */
    function Summary(): (r: map<string, StageSummary>)
      reads this, stages.Values
      ensures r.Keys == stages.Keys
      ensures forall k :: k in r ==> r[k].count == |stages[k].latencies|
      ensures forall k :: k in r ==> r[k] == Summarize(stages[k].latencies)
    {
      map k | k in stages :: Summarize(stages[k].latencies)
    }

    /** Sum of the p50 of the named stages, taken in the given order. */
    function SumP50(names: seq<string>): real
      reads this, stages.Values
      requires forall i :: 0 <= i < |names| ==> names[i] in stages
    {
      if names == [] then 0.0
      else SumP50(names[..|names| - 1]) + stages[names[|names| - 1]].P50()
    }

    /** The estimated end-to-end latency: the p50 of every stage, summed. */
    function TotalP50(): real
      reads this, stages.Values
      requires Valid()
    {
      SumP50(order)
    }

    /**
     * The logic of `print_summary`: accumulates the stages' p50 in table order,
     * then derives the total row's style and the status verdict. Rendering is not modelled.
     */
    method SummaryStatus() returns (totalMs: real, style: RowStyle, status: Status)
      requires Valid()
      ensures totalMs == TotalP50()
      ensures style == TotalStyle(totalMs) && status == Classify(totalMs)
    {
      totalMs := 0.0;
      var i := 0;
      while i < |order|
        invariant 0 <= i <= |order|
        invariant totalMs == SumP50(order[..i])
      {
        assert order[..i + 1][..i] == order[..i];
        totalMs := totalMs + stages[order[i]].P50();
        i := i + 1;
      }
      assert order[..|order|] == order;
      style := TotalStyle(totalMs);
      status := Classify(totalMs);
    }

    /** `reset`: forgets every stage and every pending start. */
    method Reset()
      modifies this
      ensures Valid()
      ensures stages == map[] && order == [] && startTimes == map[]
    {
      stages := map[];
      order := [];
      startTimes := map[];
    }
  }

  /** A tracker with no stages has an estimated total of 0 and the verdict EXCELLENT. */
  lemma EmptyTrackerIsExcellent(t: LatencyTracker)
    requires t.Valid() && t.order == []
    ensures t.TotalP50() == 0.0 && Classify(t.TotalP50()) == Excellent
  {
  }

  /** A measured block that does nothing leaves a fresh tracker with one stage holding one sample. */
  method MeasureOnce(startSeconds: real, endSeconds: real) returns (t: LatencyTracker)
    ensures t.Valid()
    ensures "test_stage" in t.stages && t.stages["test_stage"].Count() == 1
  {
    t := new LatencyTracker();
    var exit := t.Measure<string>("test_stage", startSeconds, endSeconds, Completed);
  }

  /** One hundred samples 0..99 added one at a time give p50 = 50, p95 = 95 and mean = 49.5. */
  method HundredSampleStage() returns (m: StageMetrics)
    ensures m.Count() == 100
    ensures m.P50() == 50.0 && m.P95() == 95.0 && m.Mean() == 49.5
  {
    m := new StageMetrics("test");
    var i := 0;
    while i < 100
      invariant 0 <= i <= 100
      invariant m.latencies == Stats.Range(i)
    {
      m.Add(i as real);
      i := i + 1;
    }
    Stats.HundredSamples();
  }

  /** `stop` on a stage of a fresh tracker fails with a message naming the stage. */
  method StopUnstarted(nowSeconds: real) returns (r: Result<real, TrackerError>)
    ensures r == Err(ValueError("Stage 'unstarted' was not started"))
  {
    var t := new LatencyTracker();
    r := t.Stop("unstarted", nowSeconds);
    assert NotStartedMessage("unstarted") == "Stage 'unstarted' was not started";
  }
}
