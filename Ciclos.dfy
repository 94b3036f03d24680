/**
 * The cycles hook: the lifecycle status of a cycle, the metric derived from a cycle's daily
 * records, the grouping of daily records by cycle, and the join of cycles with their metrics.
 */
module Ciclos {
  import opened Wrappers
  import opened Types
  import opened Seqs
  import opened Numbers

  /** `getCicloStatus`: cancelled first, then concluded, then sent, else still being planned. */
  function Status(c: Cycle): (st: CycleStatus)
    ensures st == Cancelled <==> c.cancelled
    ensures st == Concluded <==> !c.cancelled && c.concludedAt.Some?
    ensures st == InProgress <==> !c.cancelled && c.concludedAt.None? && c.sentAt.Some?
    ensures st == Planning <==> !c.cancelled && c.concludedAt.None? && c.sentAt.None?
  {
    if c.cancelled then Cancelled
    else if c.concludedAt.Some? then Concluded
    else if c.sentAt.Some? then InProgress
    else Planning
  }

  function PlannedOf(d: DailyRecord): int { OrZero(d.planned) }
  function RealizedOf(d: DailyRecord): int { OrZero(d.realized) }
  function CostOf(d: DailyRecord): real { OrZeroReal(d.realizedCost) }
  function RequestIdOf(d: DailyRecord): int { d.requestId }

  /**
   * `calcularMetricasDeDiarios`: no metric for no records or for a zero planned total;
   * otherwise the totals, the efficiency rounded to two decimals and the cost per realized meal.
   * The records carry no branch, so the branch falls back to 0.
   */
  function MetricFromDaily(ds: seq<DailyRecord>): (r: Option<Metric>)
    ensures r.None? <==> ds == [] || Sum(ds, PlannedOf) == 0
    ensures r.Some? ==>
              var P, R, C := Sum(ds, PlannedOf), Sum(ds, RealizedOf), SumReal(ds, CostOf);
              && r.value.requestId == ds[0].requestId && r.value.branchId == 0
              && r.value.planned == Some(P) && r.value.realized == Some(R) && r.value.realizedCost == C
              && OnGrid(r.value.efficiency, 100)
              && -0.005 < r.value.efficiency - (R as real / P as real) * 100.0 <= 0.005
              && (R > 0 ==> r.value.costPerMeal * R as real == C)
              && (R <= 0 ==> r.value.costPerMeal == 0.0)
  {
    if ds == [] then None
    else
      var planned, realized, cost := Sum(ds, PlannedOf), Sum(ds, RealizedOf), SumReal(ds, CostOf);
      if planned == 0 then None
      else
        var efficiency := (realized as real / planned as real) * 100.0;
        Some(Metric(
          ds[0].requestId, 0, Some(planned), Some(realized),
          RoundTo(efficiency, 100), cost,
          if realized > 0 then cost / realized as real else 0.0))
  }

  /** The totals of two batches of records are the sums of their totals. */
  lemma DailyTotalsConcat(a: seq<DailyRecord>, b: seq<DailyRecord>)
    ensures Sum(a + b, PlannedOf) == Sum(a, PlannedOf) + Sum(b, PlannedOf)
    ensures Sum(a + b, RealizedOf) == Sum(a, RealizedOf) + Sum(b, RealizedOf)
    ensures SumReal(a + b, CostOf) == SumReal(a, CostOf) + SumReal(b, CostOf)
  {
    SumConcat(a, b, PlannedOf);
    SumConcat(a, b, RealizedOf);
    SumRealConcat(a, b, CostOf);
  }

  /** A record with every field missing counts as zero everywhere. */
  lemma EmptyRecordCountsZero(ds: seq<DailyRecord>, id: int)
    ensures var d := DailyRecord(id, None, None, None, None, None);
            && Sum(ds + [d], PlannedOf) == Sum(ds, PlannedOf)
            && Sum(ds + [d], RealizedOf) == Sum(ds, RealizedOf)
            && SumReal(ds + [d], CostOf) == SumReal(ds, CostOf)
  {
    var d := DailyRecord(id, None, None, None, None, None);
    assert (ds + [d])[..|ds|] == ds;
  }

  /** With a positive plan met at most in full, the efficiency stays within [0, 100] up to rounding. */
  lemma EfficiencyBounds(ds: seq<DailyRecord>)
    requires MetricFromDaily(ds).Some?
    requires 0 <= Sum(ds, RealizedOf) <= Sum(ds, PlannedOf)
    ensures -0.005 < MetricFromDaily(ds).value.efficiency <= 100.005
  {
    var P, R := Sum(ds, PlannedOf) as real, Sum(ds, RealizedOf) as real;
    ShareBounds(R, P);
  }

  // ---------------------------------------------------------------------------
  // Grouping the daily records and deriving one metric per cycle
  // ---------------------------------------------------------------------------

  /** The metric map: for every cycle id among the records, its derived metric, if any. */
  function MetricsOf(ds: seq<DailyRecord>): map<int, Metric> {
    map k | k in Keys(ds, RequestIdOf) && MetricFromDaily(Group(ds, RequestIdOf, k)).Some?
      :: MetricFromDaily(Group(ds, RequestIdOf, k)).value
  }

  /**
   * The grouping loop and the `metricasMap` loop of `fetchCiclos`: records grouped by cycle
   * id in encounter order, then one metric per group whose planned total is non-zero.
   */
  method BuildMetrics(ds: seq<DailyRecord>) returns (metrics: map<int, Metric>)
    ensures metrics == MetricsOf(ds)
  {
    var groups, order := GroupBy(ds, RequestIdOf);
    metrics := map[];
    for j := 0 to |order|
      invariant forall k :: k in metrics <==> k in order[..j] && MetricFromDaily(Group(ds, RequestIdOf, k)).Some?
      invariant forall k :: k in metrics ==> metrics[k] == MetricFromDaily(Group(ds, RequestIdOf, k)).value
    {
      var k := order[j];
      var metric := MetricFromDaily(groups[k]);
      if metric.Some? {
        metrics := metrics[k := metric.value];
      }
      assert order[..j + 1] == order[..j] + [k];
    }
    assert order[..|order|] == order;
    MetricsOfPointwise(ds, metrics);
  }

  /** A map that agrees with the metric map key by key is the metric map. */
  lemma MetricsOfPointwise(ds: seq<DailyRecord>, metrics: map<int, Metric>)
    requires forall k :: k in metrics <==> k in Keys(ds, RequestIdOf) && MetricFromDaily(Group(ds, RequestIdOf, k)).Some?
    requires forall k :: k in metrics ==> metrics[k] == MetricFromDaily(Group(ds, RequestIdOf, k)).value
    ensures metrics == MetricsOf(ds)
  {
    var spec := MetricsOf(ds);
    forall k ensures k in metrics <==> k in spec {
      if k in Keys(ds, RequestIdOf) && MetricFromDaily(Group(ds, RequestIdOf, k)).Some? {
        assert k in spec;
      }
    }
    assert metrics.Keys == spec.Keys;
  }

  /** Every record lands in the group of its own cycle id, and the groups together hold all records. */
  lemma GroupingPartition(ds: seq<DailyRecord>)
    ensures forall i :: 0 <= i < |ds| ==> ds[i] in Group(ds, RequestIdOf, ds[i].requestId)
    ensures forall k, i :: 0 <= i < |Group(ds, RequestIdOf, k)| ==> Group(ds, RequestIdOf, k)[i].requestId == k
    ensures GroupSizes(ds, RequestIdOf, Keys(ds, RequestIdOf)) == |ds|
  {
    GroupSizesCover(ds, RequestIdOf, Keys(ds, RequestIdOf));
    forall i | 0 <= i < |ds| ensures ds[i] in Group(ds, RequestIdOf, ds[i].requestId) {
      GroupMember(ds, RequestIdOf, i);
    }
  }

  /** The metric map has a key for exactly the cycles whose records plan a non-zero total... */
  lemma MetricsKeys(ds: seq<DailyRecord>, k: int)
    ensures k in MetricsOf(ds) <==> (exists i :: 0 <= i < |ds| && ds[i].requestId == k)
                                    && Sum(Group(ds, RequestIdOf, k), PlannedOf) != 0
  {
    if exists i :: 0 <= i < |ds| && ds[i].requestId == k {
      var i :| 0 <= i < |ds| && ds[i].requestId == k;
      assert RequestIdOf(ds[i]) in Keys(ds, RequestIdOf);
      GroupMember(ds, RequestIdOf, i);
    } else if k in Keys(ds, RequestIdOf) {
      KeysSound(ds, RequestIdOf, k);
    }
  }

  /** ...and the metric stored under a cycle id is that cycle's own. */
  lemma MetricsOwnId(ds: seq<DailyRecord>, k: int)
    requires k in MetricsOf(ds)
    ensures MetricsOf(ds)[k].requestId == k
    ensures MetricsOf(ds)[k].planned == Some(Sum(Group(ds, RequestIdOf, k), PlannedOf))
  {
    var g := Group(ds, RequestIdOf, k);
    assert g != [];
    assert g[0].requestId == k;
  }

  // ---------------------------------------------------------------------------
  // Joining the cycles with their metrics
  // ---------------------------------------------------------------------------

  function Lookup(metrics: map<int, Metric>, id: int): (r: Option<Metric>)
    ensures r.Some? <==> id in metrics
    ensures r.Some? ==> r.value == metrics[id]
  {
    if id in metrics then Some(metrics[id]) else None
  }

  /** The `ciclosData.map(...)` join: each cycle with its metric and status, in the same order. */
  function Join(cs: seq<Cycle>, metrics: map<int, Metric>): (r: seq<CycleWithMetric>)
    ensures |r| == |cs|
    ensures forall i :: 0 <= i < |cs| ==>
              r[i].cycle == cs[i] && r[i].metric == Lookup(metrics, cs[i].requestId) && r[i].status == Status(cs[i])
  {
    seq(|cs|, i requires 0 <= i < |cs| => CycleWithMetric(cs[i], Lookup(metrics, cs[i].requestId), Status(cs[i])))
  }

  /** The message stored when a query of the cycles hook fails. */
  const LoadError := "Erro ao carregar ciclos"

  /**
   * `fetchCiclos` after its two queries: the first failure becomes the error message;
   * otherwise the fetched cycles joined with the metrics derived from the fetched records.
   */
  method LoadCycles(cycles: Fetch<Cycle>, daily: Fetch<DailyRecord>) returns (r: Result<seq<CycleWithMetric>, string>)
    ensures cycles.FetchFailed? ==> r == Failure(ErrorText(cycles.error, LoadError))
    ensures cycles.Fetched? && daily.FetchFailed? ==> r == Failure(ErrorText(daily.error, LoadError))
    ensures cycles.Fetched? && daily.Fetched?
            ==> r == Success(Join(RowsOf(cycles.rows), MetricsOf(RowsOf(daily.rows))))
  {
    if cycles.FetchFailed? {
      return Failure(ErrorText(cycles.error, LoadError));
    }
    if daily.FetchFailed? {
      return Failure(ErrorText(daily.error, LoadError));
    }
    var metrics := BuildMetrics(RowsOf(daily.rows));
    r := Success(Join(RowsOf(cycles.rows), metrics));
  }
}
