/**
 * The planning-accuracy ("assertividade") analysis: every non-cancelled cycle with a usable
 * metric is classified by the percentage variance between realized and planned meals, counted
 * overall and per branch, and turned into alerts; branches are ranked by accuracy and the
 * newest alerts are kept.
 *
 * `ReportOf` is the specification; `Analyze` is the loop of the hook, proved equal to it.
 */
module Assertividade {
  import opened Wrappers
  import opened Types
  import opened Seqs

  /** MARGEM_ACERTO: a variance within plus or minus 5 % is an accurate plan. */
  const Tolerance: real := 5.0
  /** CUSTO_REFEICAO_MEDIO: the cost, in reais, of one wasted meal. */
  const MealCost: real := 12.0
  /** A surplus beyond this percentage raises a waste alert. */
  const WasteAlertLevel: real := 10.0
  /** How many alerts the report keeps. */
  const AlertCap: nat := 10

  datatype Bucket = Accurate | Deficit | Surplus

  /** `ruptura` (meals ran short) or `desperdicio` (meals were wasted). */
  datatype AlertKind = Rupture | Waste

  /** An alert without its rendered message: kind, branch, cycle, percentage and week. */
  datatype Alert = Alert(kind: AlertKind, branchId: int, cycleId: int, value: real, date: Day)

  /** One analysed cycle: its planned and realized totals and their variance. */
  datatype Sample = Sample(cycle: Cycle, planned: int, realized: int, variance: real)

  /** The running per-branch record of the hook's `filiaisMap`. */
  datatype BranchCounters = BranchCounters(
    cycles: nat, accurate: nat, deficits: nat, surpluses: nat, variances: seq<real>, waste: real)

  /** `FilialAssertividade` */
  datatype BranchSummary = BranchSummary(
    branchId: int, totalCycles: nat, accurate: nat, accuracy: real,
    deficits: nat, surpluses: nat, meanVariance: real, wasteCost: real)

  /** `AssertividadeData` */
  datatype Report = Report(
    accuracy: real, analysed: nat, accurate: nat,
    deficits: nat, meanDeficit: real,
    surpluses: nat, meanSurplus: real, wasteCost: real,
    branches: seq<BranchSummary>, alerts: seq<Alert>)

  // ---------------------------------------------------------------------------
  // One cycle
  // ---------------------------------------------------------------------------

  function Abs(x: real): real {
    if x < 0.0 then -x else x
  }

  /** The signed percentage by which the realized meals exceed the planned ones. */
  function Variance(planned: int, realized: int): real
    requires planned != 0
  {
    ((realized - planned) as real / planned as real) * 100.0
  }

  /** The three buckets split the real line at minus and plus the tolerance. */
  function Classify(v: real): (b: Bucket)
    ensures b == Accurate <==> -Tolerance <= v <= Tolerance
    ensures b == Deficit <==> v > Tolerance
    ensures b == Surplus <==> v < -Tolerance
  {
    if Abs(v) <= Tolerance then Accurate
    else if v > Tolerance then Deficit
    else Surplus
  }

  /** The lookup from cycle id to metric row; a later row with the same id replaces an earlier one. */
  function MetricMap(ms: seq<Metric>): map<int, Metric> {
    if ms == [] then map[]
    else MetricMap(ms[..|ms| - 1])[ms[|ms| - 1].requestId := ms[|ms| - 1]]
  }

  /** A cycle is analysed when it has a metric whose planned total is present and non-zero. */
  predicate HasData(c: Cycle, m: map<int, Metric>) {
    && c.requestId in m
    && m[c.requestId].planned.Some?
    && m[c.requestId].planned.value != 0
  }

  function SampleOf(c: Cycle, m: map<int, Metric>): (s: Sample)
    requires HasData(c, m)
    ensures s.cycle == c && s.planned == m[c.requestId].planned.value
    ensures s.realized == OrZero(m[c.requestId].realized)
    ensures s.planned != 0 && s.variance == Variance(s.planned, s.realized)
  {
    var planned := m[c.requestId].planned.value;
    var realized := OrZero(m[c.requestId].realized);
    Sample(c, planned, realized, Variance(planned, realized))
  }

  /** The analysed cycles, in order. */
  function Samples(cs: seq<Cycle>, m: map<int, Metric>): (S: seq<Sample>)
    ensures |S| <= |cs|
  {
    if cs == [] then []
    else
      var init, c := Samples(cs[..|cs| - 1], m), cs[|cs| - 1];
      if HasData(c, m) then init + [SampleOf(c, m)] else init
  }

  /** The cycles the query returns: `.eq('cancelado', false)`. */
  function NonCancelled(cs: seq<Cycle>): (r: seq<Cycle>)
    ensures |r| <= |cs|
    ensures forall c :: c in r <==> c in cs && !c.cancelled
  {
    if cs == [] then []
    else
      var init, c := NonCancelled(cs[..|cs| - 1]), cs[|cs| - 1];
      assert cs == cs[..|cs| - 1] + [c];
      if c.cancelled then init else init + [c]
  }

  predicate IsAccurate(s: Sample) { Classify(s.variance) == Accurate }
  predicate IsDeficit(s: Sample) { Classify(s.variance) == Deficit }
  predicate IsSurplus(s: Sample) { Classify(s.variance) == Surplus }

  function BranchOf(s: Sample): int { s.cycle.branchId }

  /** What a sample adds to `somaDeficit`. */
  function DeficitPart(s: Sample): real { if IsDeficit(s) then s.variance else 0.0 }

  /** What a sample adds to `somaSobra`. */
  function SurplusPart(s: Sample): real { if IsSurplus(s) then Abs(s.variance) else 0.0 }

  /** What a sample adds to the estimated waste cost: the meals left over, at the meal cost. */
  function WastePart(s: Sample): real {
    if IsSurplus(s) then (s.planned - s.realized) as real * MealCost else 0.0
  }

  /** The alert a sample raises, if any. */
  function AlertOf(s: Sample): (a: Option<Alert>)
    ensures IsAccurate(s) ==> a.None?
    ensures IsDeficit(s) ==> a == Some(Alert(Rupture, s.cycle.branchId, s.cycle.requestId, s.variance, s.cycle.weekStart))
    ensures IsSurplus(s) && Abs(s.variance) > WasteAlertLevel
            ==> a == Some(Alert(Waste, s.cycle.branchId, s.cycle.requestId, Abs(s.variance), s.cycle.weekStart))
    ensures IsSurplus(s) && Abs(s.variance) <= WasteAlertLevel ==> a.None?
  {
    match Classify(s.variance)
    case Accurate => None
    case Deficit => Some(Alert(Rupture, s.cycle.branchId, s.cycle.requestId, s.variance, s.cycle.weekStart))
    case Surplus =>
      if Abs(s.variance) > WasteAlertLevel
      then Some(Alert(Waste, s.cycle.branchId, s.cycle.requestId, Abs(s.variance), s.cycle.weekStart))
      else None
  }

  function AlertList(s: Sample): seq<Alert> {
    if AlertOf(s).Some? then [AlertOf(s).value] else []
  }

  /** The alerts in the order the loop pushes them. */
  function AlertsOf(S: seq<Sample>): seq<Alert> {
    if S == [] then [] else AlertsOf(S[..|S| - 1]) + AlertList(S[|S| - 1])
  }

  // ---------------------------------------------------------------------------
  // Per branch
  // ---------------------------------------------------------------------------

  function Variances(S: seq<Sample>): (vs: seq<real>)
    ensures |vs| == |S|
    ensures forall i :: 0 <= i < |S| ==> vs[i] == S[i].variance
  {
    if S == [] then [] else Variances(S[..|S| - 1]) + [S[|S| - 1].variance]
  }

  /** The counters of a branch whose analysed cycles are `G`. */
  function Counters(G: seq<Sample>): BranchCounters {
    BranchCounters(|G|, Count(G, IsAccurate), Count(G, IsDeficit), Count(G, IsSurplus),
                   Variances(G), SumReal(G, WastePart))
  }

  /** The counters of a branch seen for the first time. */
  const NoCounters := BranchCounters(0, 0, 0, 0, [], 0.0)

  /** `count / total * 100`, or 0 when there is nothing to count. */
  function Percent(count: nat, total: nat): real {
    if total > 0 then (count as real / total as real) * 100.0 else 0.0
  }

  function Summarize(branchId: int, c: BranchCounters): BranchSummary {
    BranchSummary(branchId, c.cycles, c.accurate, Percent(c.accurate, c.cycles),
                  c.deficits, c.surpluses, Mean(SumList(c.variances), |c.variances|), c.waste)
  }

  /** The branch list before ranking, one entry per key of `order`. */
  function BranchList(S: seq<Sample>, order: seq<int>): (bs: seq<BranchSummary>)
    ensures |bs| == |order|
  {
    if order == [] then []
    else
      var k := order[|order| - 1];
      BranchList(S, order[..|order| - 1]) + [Summarize(k, Counters(Group(S, BranchOf, k)))]
  }

  lemma BranchListStep(S: seq<Sample>, order: seq<int>, j: nat)
    requires j < |order|
    ensures BranchList(S, order[..j + 1])
         == BranchList(S, order[..j]) + [Summarize(order[j], Counters(Group(S, BranchOf, order[j])))]
  {
    assert order[..j + 1][..j] == order[..j];
  }

  /** Ranking key: higher accuracy first. */
  function RankKey(b: BranchSummary): real { -b.accuracy }

  /** Alert key: later week first. */
  function AlertKey(a: Alert): real { -(a.date as real) }

  // ---------------------------------------------------------------------------
  // The report
  // ---------------------------------------------------------------------------

  /** The fleet-wide counters of the hook (`ciclosComDados`, `ciclosAssertivos`, ...). */
  datatype Tallies = Tallies(
    analysed: nat, accurate: nat, deficits: nat, surpluses: nat,
    deficitSum: real, surplusSum: real, waste: real)

  function TalliesOf(S: seq<Sample>): Tallies {
    Tallies(|S|, Count(S, IsAccurate), Count(S, IsDeficit), Count(S, IsSurplus),
            SumReal(S, DeficitPart), SumReal(S, SurplusPart), SumReal(S, WastePart))
  }

  function ReportFrom(S: seq<Sample>): Report {
    var t := TalliesOf(S);
    Report(
      Percent(t.accurate, t.analysed), t.analysed, t.accurate,
      t.deficits, Mean(t.deficitSum, t.deficits),
      t.surpluses, Mean(t.surplusSum, t.surpluses),
      t.waste,
      SortBy(BranchList(S, Keys(S, BranchOf)), RankKey),
      Take(SortBy(AlertsOf(S), AlertKey), AlertCap))
  }

  /** The analysis of the fetched cycles against the fetched metric rows. */
  function ReportOf(cycles: seq<Cycle>, metrics: seq<Metric>): Report {
    ReportFrom(Samples(NonCancelled(cycles), MetricMap(metrics)))
  }

  // ---------------------------------------------------------------------------
  // The loop of the hook
  // ---------------------------------------------------------------------------

  /** The branch table after the samples `S` have been processed; `order` is its insertion order. */
  ghost predicate BranchTable(S: seq<Sample>, branches: map<int, BranchCounters>, order: seq<int>) {
    && order == Keys(S, BranchOf)
    && (forall k :: k in branches <==> k in order)
    && (forall k :: k in branches ==> branches[k] == Counters(Group(S, BranchOf, k)))
  }

  /** The loop state after the samples `S` have been processed. */
  ghost predicate Visited(
    S: seq<Sample>, t: Tallies, branches: map<int, BranchCounters>, order: seq<int>, alerts: seq<Alert>)
  {
    t == TalliesOf(S) && BranchTable(S, branches, order) && alerts == AlertsOf(S)
  }

  /** The totals after one more analysed cycle. */
  function Step(t: Tallies, s: Sample): Tallies {
    t.(analysed := t.analysed + 1,
       accurate := t.accurate + (if IsAccurate(s) then 1 else 0),
       deficits := t.deficits + (if IsDeficit(s) then 1 else 0),
       surpluses := t.surpluses + (if IsSurplus(s) then 1 else 0),
       deficitSum := t.deficitSum + DeficitPart(s),
       surplusSum := t.surplusSum + SurplusPart(s),
       waste := t.waste + WastePart(s))
  }

  /** The update of a branch record for one more analysed cycle (`filialData.ciclos++` and so on). */
  function Tally(c: BranchCounters, s: Sample): BranchCounters {
    c.(cycles := c.cycles + 1,
       variances := c.variances + [s.variance],
       accurate := c.accurate + (if IsAccurate(s) then 1 else 0),
       deficits := c.deficits + (if IsDeficit(s) then 1 else 0),
       surpluses := c.surpluses + (if IsSurplus(s) then 1 else 0),
       waste := c.waste + WastePart(s))
  }

  lemma StepFields(t: Tallies, t': Tallies, s: Sample)
    requires t'.analysed == t.analysed + 1
    requires t'.accurate == t.accurate + (if IsAccurate(s) then 1 else 0)
    requires t'.deficits == t.deficits + (if IsDeficit(s) then 1 else 0)
    requires t'.surpluses == t.surpluses + (if IsSurplus(s) then 1 else 0)
    requires t'.deficitSum == t.deficitSum + DeficitPart(s)
    requires t'.surplusSum == t.surplusSum + SurplusPart(s)
    requires t'.waste == t.waste + WastePart(s)
    ensures t' == Step(t, s)
  {
  }

  lemma TallyFields(c: BranchCounters, c': BranchCounters, s: Sample)
    requires c'.cycles == c.cycles + 1 && c'.variances == c.variances + [s.variance]
    requires c'.accurate == c.accurate + (if IsAccurate(s) then 1 else 0)
    requires c'.deficits == c.deficits + (if IsDeficit(s) then 1 else 0)
    requires c'.surpluses == c.surpluses + (if IsSurplus(s) then 1 else 0)
    requires c'.waste == c.waste + WastePart(s)
    ensures c' == Tally(c, s)
  {
  }

  lemma CountersAppend(G: seq<Sample>, s: Sample)
    ensures Counters(G + [s]) == Tally(Counters(G), s)
  {
    assert (G + [s])[..|G|] == G;
  }

  lemma TalliesAppend(S: seq<Sample>, s: Sample)
    ensures TalliesOf(S + [s]) == Step(TalliesOf(S), s)
  {
    assert (S + [s])[..|S|] == S;
  }

  lemma AlertsAppend(S: seq<Sample>, s: Sample)
    ensures AlertsOf(S + [s]) == AlertsOf(S) + AlertList(s)
  {
    assert (S + [s])[..|S|] == S;
  }

  lemma BranchTableStep(S: seq<Sample>, s: Sample, branches: map<int, BranchCounters>, order: seq<int>)
    requires BranchTable(S, branches, order)
    ensures var k := s.cycle.branchId;
            BranchTable(S + [s],
                        branches[k := Tally(if k in branches then branches[k] else NoCounters, s)],
                        if k in branches then order else order + [k])
  {
    var k := s.cycle.branchId;
    var entry := if k in branches then branches[k] else NoCounters;
    var branches' := branches[k := Tally(entry, s)];
    forall k' | k' in branches'
      ensures branches'[k'] == Counters(Group(S + [s], BranchOf, k'))
    {
      GroupAppend(S, s, BranchOf, k');
      if k' == k {
        BranchEntryStep(S, s, branches, order);
      } else {
        assert Group(S + [s], BranchOf, k') == Group(S, BranchOf, k');
        assert k' in branches;
      }
    }
    KeysAppend(S, s, BranchOf);
  }

  /** The record of the sample's own branch after the step. */
  lemma BranchEntryStep(S: seq<Sample>, s: Sample, branches: map<int, BranchCounters>, order: seq<int>)
    requires BranchTable(S, branches, order)
    ensures var k := s.cycle.branchId;
            Tally(if k in branches then branches[k] else NoCounters, s) == Counters(Group(S + [s], BranchOf, k))
  {
    var k := s.cycle.branchId;
    if k !in branches {
      GroupEmpty(S, BranchOf, k);
      assert Counters([]) == NoCounters;
    }
    GroupAppend(S, s, BranchOf, k);
    CountersAppend(Group(S, BranchOf, k), s);
  }

  lemma VisitedStep(
    S: seq<Sample>, s: Sample, t: Tallies, branches: map<int, BranchCounters>, order: seq<int>, alerts: seq<Alert>)
    requires Visited(S, t, branches, order, alerts)
    ensures var k := s.cycle.branchId;
            Visited(S + [s], Step(t, s),
                    branches[k := Tally(if k in branches then branches[k] else NoCounters, s)],
                    if k in branches then order else order + [k],
                    alerts + AlertList(s))
  {
    TalliesAppend(S, s);
    BranchTableStep(S, s, branches, order);
    AlertsAppend(S, s);
  }

  lemma SamplesAppend(cs: seq<Cycle>, c: Cycle, m: map<int, Metric>)
    ensures Samples(cs + [c], m) == Samples(cs, m) + (if HasData(c, m) then [SampleOf(c, m)] else [])
  {
    assert (cs + [c])[..|cs|] == cs;
  }

  /** The `metricasMap` loop: one `set` per metric row. */
  method BuildMetricMap(metrics: seq<Metric>) returns (metricMap: map<int, Metric>)
    ensures metricMap == MetricMap(metrics)
  {
    metricMap := map[];
    for i := 0 to |metrics|
      invariant metricMap == MetricMap(metrics[..i])
    {
      assert metrics[..i + 1][..i] == metrics[..i];
      metricMap := metricMap[metrics[i].requestId := metrics[i]];
    }
    assert metrics[..|metrics|] == metrics;
  }

  /**
   * The body of `fetchAssertividade` after both queries succeeded: `fetched` are the cycles
   * the query returned, before its cancelled filter, and `metrics` the metric rows.
   */
  method Analyze(fetched: seq<Cycle>, metrics: seq<Metric>) returns (report: Report)
    ensures report == ReportOf(fetched, metrics)
  {
    var metricMap := BuildMetricMap(metrics);
    report := AnalyseCycles(NonCancelled(fetched), metricMap);
  }

  /** The message stored when a query of the analysis fails. */
  const AnalysisError := "Erro ao calcular assertividade"

  /**
   * `fetchAssertividade`: the cycles query (cancelled rows still to be filtered out), then the
   * metrics query; the first failure becomes the error message, `null` rows count as none.
   */
  method FetchAssertividade(cycles: Fetch<Cycle>, metrics: Fetch<Metric>) returns (r: Result<Report, string>)
    ensures cycles.FetchFailed? ==> r == Failure(ErrorText(cycles.error, AnalysisError))
    ensures cycles.Fetched? && metrics.FetchFailed? ==> r == Failure(ErrorText(metrics.error, AnalysisError))
    ensures cycles.Fetched? && metrics.Fetched?
            ==> r == Success(ReportOf(RowsOf(cycles.rows), RowsOf(metrics.rows)))
  {
    if cycles.FetchFailed? {
      return Failure(ErrorText(cycles.error, AnalysisError));
    }
    if metrics.FetchFailed? {
      return Failure(ErrorText(metrics.error, AnalysisError));
    }
    var report := Analyze(RowsOf(cycles.rows), RowsOf(metrics.rows));
    r := Success(report);
  }

  /** The per-cycle loop, the branch rollup, the two sorts and the summary. */
  method AnalyseCycles(cycles: seq<Cycle>, metricMap: map<int, Metric>) returns (report: Report)
    ensures report == ReportFrom(Samples(cycles, metricMap))
  {
    var t, branches, order, alerts := Tallies(0, 0, 0, 0, 0.0, 0.0, 0.0), map[], [], [];
    for i := 0 to |cycles|
      invariant Visited(Samples(cycles[..i], metricMap), t, branches, order, alerts)
    {
      assert cycles[..i + 1] == cycles[..i] + [cycles[i]];
      SamplesAppend(cycles[..i], cycles[i], metricMap);
      t, branches, order, alerts :=
        VisitCycle(cycles[i], metricMap, Samples(cycles[..i], metricMap), t, branches, order, alerts);
    }
    assert cycles[..|cycles|] == cycles;
    ghost var S := Samples(cycles, metricMap);

    var summaries := RollUp(S, branches, order);
    summaries := SortBy(summaries, RankKey);
    alerts := SortBy(alerts, AlertKey);
    report := Report(
      Percent(t.accurate, t.analysed), t.analysed, t.accurate,
      t.deficits, Mean(t.deficitSum, t.deficits),
      t.surpluses, Mean(t.surplusSum, t.surpluses), t.waste,
      summaries, Take(alerts, AlertCap));
  }

  /** Counting, classifying and alerting on one analysed cycle, in the totals and in its branch's record. */
  method CountSample(
    cycle: Cycle, planned: int, realized: int, variance: real, ghost s: Sample,
    t: Tallies, entry: BranchCounters, alerts: seq<Alert>)
    returns (t': Tallies, entry': BranchCounters, alerts': seq<Alert>)
    requires s == Sample(cycle, planned, realized, variance)
    ensures t' == Step(t, s) && entry' == Tally(entry, s) && alerts' == alerts + AlertList(s)
  {
    t', alerts' := t.(analysed := t.analysed + 1), alerts;
    entry' := entry.(cycles := entry.cycles + 1, variances := entry.variances + [variance]);
    if Abs(variance) <= Tolerance {
      t' := t'.(accurate := t'.accurate + 1);
      entry' := entry'.(accurate := entry'.accurate + 1);
    } else if variance > Tolerance {
      t' := t'.(deficits := t'.deficits + 1, deficitSum := t'.deficitSum + variance);
      entry' := entry'.(deficits := entry'.deficits + 1);
      alerts' := alerts' + [Alert(Rupture, cycle.branchId, cycle.requestId, variance, cycle.weekStart)];
    } else {
      var surplusAbs := Abs(variance);
      var cost := (planned - realized) as real * MealCost;
      t' := t'.(surpluses := t'.surpluses + 1, surplusSum := t'.surplusSum + surplusAbs, waste := t'.waste + cost);
      entry' := entry'.(surpluses := entry'.surpluses + 1, waste := entry'.waste + cost);
      if surplusAbs > WasteAlertLevel {
        alerts' := alerts' + [Alert(Waste, cycle.branchId, cycle.requestId, surplusAbs, cycle.weekStart)];
      }
    }
    StepFields(t, t', s);
    TallyFields(entry, entry', s);
  }

  /** The body of the `ciclos.forEach` callback: skip, or count, classify and alert. */
  method VisitCycle(
    cycle: Cycle, metricMap: map<int, Metric>, ghost S: seq<Sample>,
    t: Tallies, branches: map<int, BranchCounters>, order: seq<int>, alerts: seq<Alert>)
    returns (t': Tallies, branches': map<int, BranchCounters>, order': seq<int>, alerts': seq<Alert>)
    requires Visited(S, t, branches, order, alerts)
    ensures Visited(S + (if HasData(cycle, metricMap) then [SampleOf(cycle, metricMap)] else []),
                    t', branches', order', alerts')
  {
    if !HasData(cycle, metricMap) {
      assert S + [] == S;
      return t, branches, order, alerts;
    }
    ghost var s := SampleOf(cycle, metricMap);
    VisitedStep(S, s, t, branches, order, alerts);

    var planned := metricMap[cycle.requestId].planned.value;
    var realized := OrZero(metricMap[cycle.requestId].realized);
    var variance := Variance(planned, realized);
    var entry := if cycle.branchId in branches then branches[cycle.branchId] else NoCounters;
    order' := if cycle.branchId in branches then order else order + [cycle.branchId];
    t', entry, alerts' := CountSample(cycle, planned, realized, variance, s, t, entry, alerts);
    branches' := branches[cycle.branchId := entry];
  }

  /** The `filiaisMap.forEach` loop: one summary per branch, in insertion order. */
  method RollUp(ghost S: seq<Sample>, branches: map<int, BranchCounters>, order: seq<int>)
    returns (summaries: seq<BranchSummary>)
    requires BranchTable(S, branches, order)
    ensures summaries == BranchList(S, order)
  {
    summaries := [];
    for j := 0 to |order|
      invariant summaries == BranchList(S, order[..j])
    {
      BranchListStep(S, order, j);
      assert order[j] in branches;
      summaries := summaries + [Summarize(order[j], branches[order[j]])];
    }
    assert order[..|order|] == order;
  }
}

/** Properties of the assertiveness analysis. */
module AssertividadeFacts {
  import opened Wrappers
  import opened Types
  import opened Seqs
  import opened Numbers
  import opened Assertividade

  // ---------------------------------------------------------------------------
  // Classification
  // ---------------------------------------------------------------------------

  /** With a positive plan, the buckets are integer comparisons of realized against planned meals. */
  lemma VarianceBuckets(planned: int, realized: int)
    requires planned > 0
    ensures Classify(Variance(planned, realized)) == Accurate <==> 19 * planned <= 20 * realized <= 21 * planned
    ensures Classify(Variance(planned, realized)) == Deficit <==> 20 * realized > 21 * planned
    ensures Classify(Variance(planned, realized)) == Surplus <==> 20 * realized < 19 * planned
  {
    var v := Variance(planned, realized);
    var p := planned as real;
    assert v * p == (realized - planned) as real * 100.0;
    assert (v - 5.0) * p == v * p - 5.0 * p;
    assert (-5.0 - v) * p == -5.0 * p - v * p;
    SignOfProduct(v - 5.0, p);
    SignOfProduct(-5.0 - v, p);
  }

  lemma {:induction false} BucketsPartition(S: seq<Sample>)
    ensures Count(S, IsAccurate) + Count(S, IsDeficit) + Count(S, IsSurplus) == |S|
  {
    if S != [] {
      BucketsPartition(S[..|S| - 1]);
    }
  }

  /** Every analysed cycle is counted in exactly one bucket. */
  lemma ReportBuckets(cycles: seq<Cycle>, metrics: seq<Metric>)
    ensures var r := ReportOf(cycles, metrics);
            r.accurate + r.deficits + r.surpluses == r.analysed
  {
    BucketsPartition(Samples(NonCancelled(cycles), MetricMap(metrics)));
  }

  // ---------------------------------------------------------------------------
  // Cycles that are skipped
  // ---------------------------------------------------------------------------

  lemma {:induction false} SamplesConcat(a: seq<Cycle>, b: seq<Cycle>, m: map<int, Metric>)
    ensures Samples(a + b, m) == Samples(a, m) + Samples(b, m)
  {
    if b == [] {
      assert a + b == a;
    } else {
      var b', c := b[..|b| - 1], b[|b| - 1];
      assert a + b == (a + b') + [c];
      assert b == b' + [c];
      SamplesAppend(a + b', c, m);
      SamplesAppend(b', c, m);
      SamplesConcat(a, b', m);
    }
  }

  lemma {:induction false} NonCancelledConcat(a: seq<Cycle>, b: seq<Cycle>)
    ensures NonCancelled(a + b) == NonCancelled(a) + NonCancelled(b)
  {
    if b == [] {
      assert a + b == a;
    } else {
      var b', c := b[..|b| - 1], b[|b| - 1];
      assert (a + b)[..|a + b| - 1] == a + b';
      NonCancelledConcat(a, b');
    }
  }

  /**
   * A cancelled cycle, or one without a metric whose planned total is present and non-zero,
   * changes nothing in the report: no counter, no branch, no alert.
   */
  lemma SkippedCycleIgnored(a: seq<Cycle>, c: Cycle, b: seq<Cycle>, metrics: seq<Metric>)
    requires c.cancelled || !HasData(c, MetricMap(metrics))
    ensures ReportOf(a + [c] + b, metrics) == ReportOf(a + b, metrics)
  {
    var m := MetricMap(metrics);
    NonCancelledConcat(a + [c], b);
    NonCancelledConcat(a, [c]);
    NonCancelledConcat(a, b);
    assert NonCancelled([c]) == if c.cancelled then [] else [c];
    if c.cancelled {
      assert NonCancelled(a) + [] == NonCancelled(a);
    } else {
      SamplesConcat(NonCancelled(a) + [c], NonCancelled(b), m);
      SamplesConcat(NonCancelled(a), [c], m);
      SamplesConcat(NonCancelled(a), NonCancelled(b), m);
      SamplesAppend([], c, m);
      assert [] + [c] == [c];
      assert Samples([c], m) == [];
      assert Samples(NonCancelled(a), m) + [] == Samples(NonCancelled(a), m);
    }
  }

  // ---------------------------------------------------------------------------
  // Alerts
  // ---------------------------------------------------------------------------

  predicate IsRupture(a: Alert) { a.kind == Rupture }

  predicate RaisesWasteAlert(s: Sample) { IsSurplus(s) && Abs(s.variance) > WasteAlertLevel }

  /** One rupture alert per deficit cycle, one waste alert per surplus beyond 10 %, none otherwise. */
  lemma {:induction false} AlertCounts(S: seq<Sample>)
    ensures |AlertsOf(S)| == Count(S, IsDeficit) + Count(S, RaisesWasteAlert)
    ensures Count(AlertsOf(S), IsRupture) == Count(S, IsDeficit)
  {
    if S != [] {
      var S', s := S[..|S| - 1], S[|S| - 1];
      AlertCounts(S');
      var A := AlertsOf(S');
      if AlertOf(s).Some? {
        assert (A + [AlertOf(s).value])[..|A|] == A;
      } else {
        assert A + [] == A;
      }
    }
  }

  /** Every alert reports a variance of more than 5 % in magnitude: a deficit, or a surplus beyond 10 %. */
  lemma {:induction false} AlertValues(S: seq<Sample>)
    ensures forall i :: 0 <= i < |AlertsOf(S)| ==>
              var a := AlertsOf(S)[i];
              (a.kind == Rupture ==> a.value > Tolerance) && (a.kind == Waste ==> a.value > WasteAlertLevel)
  {
    if S != [] {
      AlertValues(S[..|S| - 1]);
    }
  }

  /** The first `AlertCap` of the alerts sorted by `AlertKey` are newest first. */
  lemma TopAlertsNewestFirst(A: seq<Alert>)
    ensures var top := Take(SortBy(A, AlertKey), AlertCap);
            forall i, j :: 0 <= i < j < |top| ==> top[i].date >= top[j].date
  {
    var all := SortBy(A, AlertKey);
    var top := Take(all, AlertCap);
    SortBySorted(A, AlertKey);
    forall i, j | 0 <= i < j < |top| ensures top[i].date >= top[j].date {
      assert top[i] == all[i] && top[j] == all[j];
      assert AlertKey(all[i]) <= AlertKey(all[j]);
    }
  }

  /**
   * The reported alerts are at most ten, newest first, and are the first ten of all alerts so
   * sorted (a stable sort: `SortByStable`).
   */
  lemma ReportAlerts(cycles: seq<Cycle>, metrics: seq<Metric>)
    ensures var A := AlertsOf(Samples(NonCancelled(cycles), MetricMap(metrics)));
            var all := SortBy(A, AlertKey);
            var r := ReportOf(cycles, metrics);
            && r.alerts == Take(all, AlertCap)
            && |r.alerts| <= AlertCap
            && multiset(all) == multiset(A)
            && (forall i, j :: 0 <= i < j < |r.alerts| ==> r.alerts[i].date >= r.alerts[j].date)
  {
    TopAlertsNewestFirst(AlertsOf(Samples(NonCancelled(cycles), MetricMap(metrics))));
  }

  // ---------------------------------------------------------------------------
  // Branches
  // ---------------------------------------------------------------------------

  function TotalCyclesOf(b: BranchSummary): int { b.totalCycles }
  function WasteCostOf(b: BranchSummary): real { b.wasteCost }
  function BranchIdOf(b: BranchSummary): int { b.branchId }

  lemma {:induction false} BranchListSizes(S: seq<Sample>, order: seq<int>)
    ensures Sum(BranchList(S, order), TotalCyclesOf) == GroupSizes(S, BranchOf, order)
  {
    if order != [] {
      var order' := order[..|order| - 1];
      BranchListSizes(S, order');
      var bs := BranchList(S, order');
      var b := Summarize(order[|order| - 1], Counters(Group(S, BranchOf, order[|order| - 1])));
      assert (bs + [b])[..|bs|] == bs;
    }
  }

  lemma {:induction false} BranchListWaste(S: seq<Sample>, order: seq<int>)
    ensures SumReal(BranchList(S, order), WasteCostOf) == GroupSums(S, BranchOf, order, WastePart)
  {
    if order != [] {
      var order' := order[..|order| - 1];
      BranchListWaste(S, order');
      var bs := BranchList(S, order');
      var b := Summarize(order[|order| - 1], Counters(Group(S, BranchOf, order[|order| - 1])));
      assert (bs + [b])[..|bs|] == bs;
    }
  }

  /** Entry `i` of the branch list summarises the cycles of branch `order[i]`. */
  lemma {:induction false} BranchListEntries(S: seq<Sample>, order: seq<int>)
    ensures forall i :: 0 <= i < |order| ==>
              BranchList(S, order)[i] == Summarize(order[i], Counters(Group(S, BranchOf, order[i])))
  {
    if order != [] {
      BranchListEntries(S, order[..|order| - 1]);
    }
  }

  /** The branch totals add up to the fleet totals: analysed cycles and waste cost. */
  lemma ReportBranchTotals(cycles: seq<Cycle>, metrics: seq<Metric>)
    ensures var r := ReportOf(cycles, metrics);
            && Sum(r.branches, TotalCyclesOf) == r.analysed
            && SumReal(r.branches, WasteCostOf) == r.wasteCost
  {
    var S := Samples(NonCancelled(cycles), MetricMap(metrics));
    var order := Keys(S, BranchOf);
    var bs := BranchList(S, order);
    SumSortBy(bs, RankKey, TotalCyclesOf);
    SumRealSortBy(bs, RankKey, WasteCostOf);
    BranchListSizes(S, order);
    BranchListWaste(S, order);
    GroupSizesCover(S, BranchOf, order);
    GroupSumsCover(S, BranchOf, order, WastePart);
  }

  /** What every branch entry of a report satisfies. */
  ghost predicate BranchConsistent(b: BranchSummary) {
    && b.totalCycles > 0
    && b.totalCycles == b.accurate + b.deficits + b.surpluses
    && b.accuracy == (b.accurate as real / b.totalCycles as real) * 100.0
    && 0.0 <= b.accuracy <= 100.0
  }

  lemma PercentBounds(count: nat, total: nat)
    requires count <= total
    ensures 0.0 <= Percent(count, total) <= 100.0
  {
    if total > 0 {
      var q := count as real / total as real;
      assert q * total as real == count as real;
    }
  }

  lemma BranchSummaryConsistent(S: seq<Sample>, k: int)
    requires k in Keys(S, BranchOf)
    ensures BranchConsistent(Summarize(k, Counters(Group(S, BranchOf, k))))
  {
    var G := Group(S, BranchOf, k);
    GroupNonEmpty(S, BranchOf, k);
    BucketsPartition(G);
    PercentBounds(Count(G, IsAccurate), |G|);
  }

  /** The ranked branch list has each branch id once and is ordered by non-increasing accuracy. */
  lemma ReportBranchesRanked(cycles: seq<Cycle>, metrics: seq<Metric>)
    ensures var r := ReportOf(cycles, metrics);
            && DistinctBy(r.branches, BranchIdOf)
            && (forall i, j :: 0 <= i < j < |r.branches| ==> r.branches[i].accuracy >= r.branches[j].accuracy)
  {
    var S := Samples(NonCancelled(cycles), MetricMap(metrics));
    var r := ReportOf(cycles, metrics);
    var order := Keys(S, BranchOf);
    var bs := BranchList(S, order);
    assert r.branches == SortBy(bs, RankKey);
    BranchListEntries(S, order);
    assert DistinctBy(bs, BranchIdOf) by {
      forall i, j | 0 <= i < j < |bs| ensures BranchIdOf(bs[i]) != BranchIdOf(bs[j]) {
        assert bs[i].branchId == order[i] && bs[j].branchId == order[j];
      }
    }
    SortByDistinctBy(bs, RankKey, BranchIdOf);
    SortBySorted(bs, RankKey);
    forall i, j | 0 <= i < j < |r.branches| ensures r.branches[i].accuracy >= r.branches[j].accuracy {
      assert RankKey(r.branches[i]) <= RankKey(r.branches[j]);
    }
  }

  /** Before ranking, every entry of the branch list is a branch with an analysed cycle... */
  lemma BranchListIdsSound(S: seq<Sample>, b: BranchSummary)
    requires b in BranchList(S, Keys(S, BranchOf))
    ensures exists s :: s in S && s.cycle.branchId == b.branchId
  {
    var order := Keys(S, BranchOf);
    var bs := BranchList(S, order);
    BranchListEntries(S, order);
    var i :| 0 <= i < |bs| && bs[i] == b;
    GroupNonEmpty(S, BranchOf, order[i]);
    GroupElements(S, BranchOf, order[i]);
    var G := Group(S, BranchOf, order[i]);
    assert G[0] in S && G[0].cycle.branchId == b.branchId;
  }

  /** ...and every branch with an analysed cycle has an entry. */
  lemma BranchListIdsComplete(S: seq<Sample>, s: Sample)
    requires s in S
    ensures exists b :: b in BranchList(S, Keys(S, BranchOf)) && b.branchId == s.cycle.branchId
  {
    var order := Keys(S, BranchOf);
    var bs := BranchList(S, order);
    BranchListEntries(S, order);
    var j :| 0 <= j < |S| && S[j] == s;
    assert BranchOf(S[j]) in order;
    var i :| 0 <= i < |order| && order[i] == s.cycle.branchId;
    assert bs[i] in bs && bs[i].branchId == s.cycle.branchId;
  }

  /** Before ranking, each entry summarises exactly its branch's analysed cycles and is consistent. */
  lemma BranchListConsistent(S: seq<Sample>)
    ensures var bs := BranchList(S, Keys(S, BranchOf));
            forall b :: b in bs ==>
              b == Summarize(b.branchId, Counters(Group(S, BranchOf, b.branchId))) && BranchConsistent(b)
  {
    var order := Keys(S, BranchOf);
    var bs := BranchList(S, order);
    BranchListEntries(S, order);
    forall b | b in bs
      ensures b == Summarize(b.branchId, Counters(Group(S, BranchOf, b.branchId))) && BranchConsistent(b)
    {
      var i :| 0 <= i < |bs| && bs[i] == b;
      BranchSummaryConsistent(S, order[i]);
    }
  }

  /** After ranking, every entry is a branch with an analysed cycle, and every such branch has an entry. */
  lemma RankedBranchIds(S: seq<Sample>)
    ensures var ranked := SortBy(BranchList(S, Keys(S, BranchOf)), RankKey);
            && (forall b :: b in ranked ==> exists s :: s in S && s.cycle.branchId == b.branchId)
            && (forall s :: s in S ==> exists b :: b in ranked && b.branchId == s.cycle.branchId)
  {
    var bs := BranchList(S, Keys(S, BranchOf));
    var ranked := SortBy(bs, RankKey);
    SortByElements(bs, RankKey);
    forall b | b in ranked ensures exists s :: s in S && s.cycle.branchId == b.branchId {
      BranchListIdsSound(S, b);
    }
    forall s | s in S ensures exists b :: b in ranked && b.branchId == s.cycle.branchId {
      BranchListIdsComplete(S, s);
      var b :| b in bs && b.branchId == s.cycle.branchId;
      assert b in ranked;
    }
  }

  /**
   * The branch list has an entry for exactly the branches with an analysed cycle; each entry
   * summarises exactly its branch's analysed cycles and is consistent.
   */
  lemma ReportBranchEntries(cycles: seq<Cycle>, metrics: seq<Metric>)
    ensures var S := Samples(NonCancelled(cycles), MetricMap(metrics));
            var r := ReportOf(cycles, metrics);
            && (forall b :: b in r.branches ==> exists s :: s in S && s.cycle.branchId == b.branchId)
            && (forall s :: s in S ==> exists b :: b in r.branches && b.branchId == s.cycle.branchId)
            && (forall b :: b in r.branches ==>
                  b == Summarize(b.branchId, Counters(Group(S, BranchOf, b.branchId))) && BranchConsistent(b))
  {
    var S := Samples(NonCancelled(cycles), MetricMap(metrics));
    assert ReportOf(cycles, metrics).branches == SortBy(BranchList(S, Keys(S, BranchOf)), RankKey);
    RankedBranchIds(S);
    RankedConsistent(S);
  }

  /** Ranking keeps every entry, so every ranked entry is consistent and summarises its branch. */
  lemma RankedConsistent(S: seq<Sample>)
    ensures var ranked := SortBy(BranchList(S, Keys(S, BranchOf)), RankKey);
            forall b :: b in ranked ==>
              b == Summarize(b.branchId, Counters(Group(S, BranchOf, b.branchId))) && BranchConsistent(b)
  {
    var bs := BranchList(S, Keys(S, BranchOf));
    SortByElements(bs, RankKey);
    BranchListConsistent(S);
    forall b | b in SortBy(bs, RankKey)
      ensures b == Summarize(b.branchId, Counters(Group(S, BranchOf, b.branchId))) && BranchConsistent(b)
    {
      assert b in bs;
    }
  }

  // ---------------------------------------------------------------------------
  // Fleet-wide figures
  // ---------------------------------------------------------------------------

  /** The overall accuracy is the share of accurate cycles among the analysed ones, in [0, 100]. */
  lemma ReportAccuracy(cycles: seq<Cycle>, metrics: seq<Metric>)
    ensures var r := ReportOf(cycles, metrics);
            && 0.0 <= r.accuracy <= 100.0
            && (r.analysed == 0 ==> r.accuracy == 0.0)
            && (r.analysed > 0 ==> r.accuracy == (r.accurate as real / r.analysed as real) * 100.0)
  {
    var S := Samples(NonCancelled(cycles), MetricMap(metrics));
    BucketsPartition(S);
    PercentBounds(Count(S, IsAccurate), |S|);
  }

  /** Each deficit contributes a variance above 5 %, so their sum exceeds 5 % per deficit. */
  lemma {:induction false} DeficitSum(S: seq<Sample>)
    ensures Count(S, IsDeficit) == 0 ==> SumReal(S, DeficitPart) == 0.0
    ensures Count(S, IsDeficit) > 0 ==> SumReal(S, DeficitPart) > Tolerance * Count(S, IsDeficit) as real
  {
    if S != [] {
      DeficitSum(S[..|S| - 1]);
    }
  }

  /** Each surplus contributes a magnitude above 5 %, so their sum exceeds 5 % per surplus. */
  lemma {:induction false} SurplusSum(S: seq<Sample>)
    ensures Count(S, IsSurplus) == 0 ==> SumReal(S, SurplusPart) == 0.0
    ensures Count(S, IsSurplus) > 0 ==> SumReal(S, SurplusPart) > Tolerance * Count(S, IsSurplus) as real
  {
    if S != [] {
      SurplusSum(S[..|S| - 1]);
    }
  }

  lemma MeanAbove(total: real, n: nat, lo: real)
    requires n > 0 && total > lo * n as real
    ensures Mean(total, n) > lo
  {
    var m := total / n as real;
    assert m * n as real == total;
    if m <= lo {
      assert m * n as real <= lo * n as real;
    }
  }

  lemma BucketMeans(S: seq<Sample>)
    ensures var d := Count(S, IsDeficit);
            && (d == 0 ==> Mean(SumReal(S, DeficitPart), d) == 0.0)
            && (d > 0 ==> Mean(SumReal(S, DeficitPart), d) > Tolerance)
    ensures var n := Count(S, IsSurplus);
            && (n == 0 ==> Mean(SumReal(S, SurplusPart), n) == 0.0)
            && (n > 0 ==> Mean(SumReal(S, SurplusPart), n) > Tolerance)
  {
    DeficitSum(S);
    SurplusSum(S);
    if Count(S, IsDeficit) > 0 {
      MeanAbove(SumReal(S, DeficitPart), Count(S, IsDeficit), Tolerance);
    }
    if Count(S, IsSurplus) > 0 {
      MeanAbove(SumReal(S, SurplusPart), Count(S, IsSurplus), Tolerance);
    }
  }

  /**
   * The mean deficit and the mean surplus are the means of the deficit variances and of the
   * surplus magnitudes: above 5 % when their bucket is non-empty, 0 when it is empty.
   */
  lemma ReportMeans(cycles: seq<Cycle>, metrics: seq<Metric>)
    ensures var S := Samples(NonCancelled(cycles), MetricMap(metrics));
            var r := ReportOf(cycles, metrics);
            && r.meanDeficit == Mean(SumReal(S, DeficitPart), r.deficits)
            && r.meanSurplus == Mean(SumReal(S, SurplusPart), r.surpluses)
            && (r.deficits == 0 ==> r.meanDeficit == 0.0)
            && (r.deficits > 0 ==> r.meanDeficit > Tolerance)
            && (r.surpluses == 0 ==> r.meanSurplus == 0.0)
            && (r.surpluses > 0 ==> r.meanSurplus > Tolerance)
  {
    BucketMeans(Samples(NonCancelled(cycles), MetricMap(metrics)));
  }

  // ---------------------------------------------------------------------------
  // The metric lookup and the waste cost
  // ---------------------------------------------------------------------------

  /** The lookup has a key for exactly the cycle ids of the metric rows... */
  lemma {:induction false} MetricMapKeys(ms: seq<Metric>)
    ensures forall k :: k in MetricMap(ms) <==> exists i :: 0 <= i < |ms| && ms[i].requestId == k
  {
    if ms != [] {
      var ms' := ms[..|ms| - 1];
      MetricMapKeys(ms');
      forall k | exists i :: 0 <= i < |ms| && ms[i].requestId == k
        ensures k in MetricMap(ms)
      {
        var i :| 0 <= i < |ms| && ms[i].requestId == k;
        if i < |ms| - 1 {
          assert ms'[i].requestId == k;
        }
      }
    }
  }

  /** ...and maps each to the last row with that id. */
  lemma {:induction false} MetricMapLastWins(ms: seq<Metric>, i: nat)
    requires i < |ms|
    requires forall j :: i < j < |ms| ==> ms[j].requestId != ms[i].requestId
    ensures ms[i].requestId in MetricMap(ms) && MetricMap(ms)[ms[i].requestId] == ms[i]
  {
    if i < |ms| - 1 {
      var ms' := ms[..|ms| - 1];
      MetricMapLastWins(ms', i);
    }
  }

  lemma {:induction false} MetricMapValues(ms: seq<Metric>)
    ensures forall k :: k in MetricMap(ms) ==> MetricMap(ms)[k] in ms
  {
    if ms != [] {
      var ms' := ms[..|ms| - 1];
      MetricMapValues(ms');
      assert forall x :: x in ms' ==> x in ms;
    }
  }

  /** Every analysed cycle is one of the given cycles with a usable metric, sampled from it. */
  lemma {:induction false} SamplesFrom(cs: seq<Cycle>, m: map<int, Metric>)
    ensures forall s :: s in Samples(cs, m) ==>
              s.cycle in cs && HasData(s.cycle, m) && s == SampleOf(s.cycle, m)
  {
    if cs != [] {
      var cs' := cs[..|cs| - 1];
      SamplesFrom(cs', m);
      assert forall c :: c in cs' ==> c in cs;
    }
  }

  /** With a positive plan, a surplus means fewer meals were realized than planned. */
  lemma SurplusWaste(s: Sample)
    requires s.planned > 0 && s.variance == Variance(s.planned, s.realized)
    requires IsSurplus(s)
    ensures s.realized < s.planned && WastePart(s) > 0.0
  {
    VarianceBuckets(s.planned, s.realized);
  }

  lemma {:induction false} WasteNonNegative(S: seq<Sample>)
    requires forall s :: s in S ==> s.planned > 0 && s.variance == Variance(s.planned, s.realized)
    ensures SumReal(S, WastePart) >= 0.0
  {
    if S != [] {
      var S' := S[..|S| - 1];
      assert forall s :: s in S' ==> s in S;
      WasteNonNegative(S');
      if IsSurplus(S[|S| - 1]) {
        SurplusWaste(S[|S| - 1]);
      }
    }
  }

  /**
   * When no metric row has a negative planned total, the estimated waste cost is a sum of
   * positive costs of surplus cycles, so it is never negative.
   */
  lemma ReportWasteNonNegative(cycles: seq<Cycle>, metrics: seq<Metric>)
    requires forall i :: 0 <= i < |metrics| && metrics[i].planned.Some? ==> metrics[i].planned.value >= 0
    ensures ReportOf(cycles, metrics).wasteCost >= 0.0
  {
    var m := MetricMap(metrics);
    var S := Samples(NonCancelled(cycles), m);
    SamplesFrom(NonCancelled(cycles), m);
    MetricMapValues(metrics);
    forall s | s in S ensures s.planned > 0 && s.variance == Variance(s.planned, s.realized) {
      assert m[s.cycle.requestId] in metrics;
    }
    WasteNonNegative(S);
  }

  /**
   * The guard skips only a missing or zero planned total: a row planning -10 meals with none
   * realized passes it, has a variance of -100 %, counts as a surplus and adds a negative
   * waste cost of -120.
   */
  lemma NegativePlanWaste()
    ensures var c := Cycle(1, 7, 3, 0, 6, 0, 0, false, None, None);
            var mt := Metric(7, 3, Some(-10), Some(0), 0.0, 0.0, 0.0);
            var r := ReportOf([c], [mt]);
            r.analysed == 1 && r.surpluses == 1 && r.wasteCost == -120.0
  {
    var c := Cycle(1, 7, 3, 0, 6, 0, 0, false, None, None);
    var mt := Metric(7, 3, Some(-10), Some(0), 0.0, 0.0, 0.0);
    var m := MetricMap([mt]);
    assert [mt][..|[mt]| - 1] == [];
    assert MetricMap([]) == map[];
    assert m == MetricMap([])[mt.requestId := mt];
    assert m == map[7 := mt];
    assert NonCancelled([c]) == [c];
    assert Variance(-10, 0) == -100.0;
    var s := SampleOf(c, m);
    assert Samples([c], m) == [s];
    assert WastePart(s) == -120.0;
  }
}
