/**
 * The headline indicators: cycle counts, meal totals over the daily records, the mean
 * efficiency with its fallback, the mean reference cost per meal and the extra orders.
 */
module Kpis {
  import opened Wrappers
  import opened Types
  import opened Seqs
  import opened Numbers
  import opened Ciclos

  /** The values of `f` that are present and strictly positive, in row order (`filter(d => d.x && d.x > 0)`). */
  function Positives<T>(s: seq<T>, f: T -> Option<real>): (r: seq<real>)
    ensures |r| <= |s|
    ensures forall i :: 0 <= i < |r| ==> r[i] > 0.0
  {
    if s == [] then []
    else
      var x := f(s[|s| - 1]);
      Positives(s[..|s| - 1], f) + (if x.Some? && x.value > 0.0 then [x.value] else [])
  }

  /** A value is kept exactly when some row holds it and it is positive. */
  lemma {:induction false} PositivesMembers<T>(s: seq<T>, f: T -> Option<real>, x: real)
    ensures x in Positives(s, f) <==> x > 0.0 && exists i :: 0 <= i < |s| && f(s[i]) == Some(x)
  {
    if s != [] {
      var init := s[..|s| - 1];
      PositivesMembers(init, f, x);
      if exists i :: 0 <= i < |init| && f(init[i]) == Some(x) {
        var i :| 0 <= i < |init| && f(init[i]) == Some(x);
        assert s[i] == init[i];
      }
      if exists i :: 0 <= i < |s| && f(s[i]) == Some(x) {
        var i :| 0 <= i < |s| && f(s[i]) == Some(x);
        if i < |init| {
          assert init[i] == s[i];
        }
      }
    }
  }

  /** Values kept from rows that are all at most `hi` are at most `hi`. */
  lemma {:induction false} PositivesBounded<T>(s: seq<T>, f: T -> Option<real>, hi: real)
    requires forall i :: 0 <= i < |s| ==> f(s[i]).None? || f(s[i]).value <= hi
    ensures forall j :: 0 <= j < |Positives(s, f)| ==> Positives(s, f)[j] <= hi
  {
    if s != [] {
      PositivesBounded(s[..|s| - 1], f, hi);
    }
  }

  /** Rows without a positive value keep nothing. */
  lemma {:induction false} PositivesNone<T>(s: seq<T>, f: T -> Option<real>)
    requires forall i :: 0 <= i < |s| ==> f(s[i]).None? || f(s[i]).value <= 0.0
    ensures Positives(s, f) == []
  {
    if s != [] {
      PositivesNone(s[..|s| - 1], f);
    }
  }

  /** A non-empty sum of positive values is positive. */
  lemma {:induction false} SumListPositive(xs: seq<real>)
    requires xs != []
    requires forall i :: 0 <= i < |xs| ==> xs[i] > 0.0
    ensures SumList(xs) > 0.0
    ensures SumList(xs) / |xs| as real > 0.0
  {
    var init := xs[..|xs| - 1];
    if init != [] {
      SumListPositive(init);
    }
    var n, m := |xs| as real, SumList(xs) / |xs| as real;
    assert m * n == SumList(xs);
  }

  function EfficiencyOf(d: DailyRecord): Option<real> { d.efficiency }
  function ReferenceCostOf(d: DailyRecord): Option<real> { d.referenceCost }
  function AdditionValueOf(a: Addition): real { OrZeroReal(a.detailTotal) }

  /**
   * The mean efficiency before rounding: the mean of the positive per-day efficiencies, or,
   * when there are none, realized over planned in percent, or 0 without a positive plan.
   */
  function RawMeanEfficiency(ds: seq<DailyRecord>): real {
    var pos := Positives(ds, EfficiencyOf);
    if |pos| > 0 then SumList(pos) / |pos| as real
    else
      var planned, realized := Sum(ds, PlannedOf), Sum(ds, RealizedOf);
      if planned > 0 then (realized as real / planned as real) * 100.0 else 0.0
  }

  /** The mean reference cost before rounding: the mean of the positive reference costs, or 0. */
  function RawMeanCost(ds: seq<DailyRecord>): real {
    var pos := Positives(ds, ReferenceCostOf);
    if |pos| > 0 then SumList(pos) / |pos| as real else 0.0
  }

  /** The indicators from the two cycle counts (`null` when the count failed) and the fetched rows. */
  function ComputeKpis(totalCycles: Option<int>, activeCycles: Option<int>,
                       daily: Option<seq<DailyRecord>>, additions: Option<seq<Addition>>): (k: KpiData)
    ensures k.totalCycles == OrZero(totalCycles) && k.activeCycles == OrZero(activeCycles)
    ensures k.plannedMeals == Sum(RowsOf(daily), PlannedOf)
    ensures k.realizedMeals == Sum(RowsOf(daily), RealizedOf)
    ensures OnGrid(k.meanEfficiency, 10)
    ensures -0.05 < k.meanEfficiency - RawMeanEfficiency(RowsOf(daily)) <= 0.05
    ensures OnGrid(k.meanMealCost, 100)
    ensures -0.005 < k.meanMealCost - RawMeanCost(RowsOf(daily)) <= 0.005
    ensures k.additions == |RowsOf(additions)|
    ensures k.additionsValue == SumReal(RowsOf(additions), AdditionValueOf)
  {
    var ds := RowsOf(daily);
    var extra := RowsOf(additions);
    KpiData(
      OrZero(totalCycles), OrZero(activeCycles),
      Sum(ds, PlannedOf), Sum(ds, RealizedOf),
      RoundTo(RawMeanEfficiency(ds), 10), RoundTo(RawMeanCost(ds), 100),
      |extra|, SumReal(extra, AdditionValueOf))
  }

  /** Without daily rows or extra orders every total is 0. */
  lemma NoRowsNoTotals(totalCycles: Option<int>, activeCycles: Option<int>)
    ensures var k := ComputeKpis(totalCycles, activeCycles, None, None);
            && k.plannedMeals == 0 && k.realizedMeals == 0
            && RawMeanEfficiency([]) == 0.0 && RawMeanCost([]) == 0.0
            && k.meanEfficiency == 0.0 && k.meanMealCost == 0.0
            && k.additions == 0 && k.additionsValue == 0.0
  {
  }

  /** With positive per-day efficiencies, the mean is their mean, which is positive and at most their largest. */
  lemma MeanEfficiencyOfPositives(ds: seq<DailyRecord>, hi: real)
    requires Positives(ds, EfficiencyOf) != []
    requires forall i :: 0 <= i < |ds| && ds[i].efficiency.Some? ==> ds[i].efficiency.value <= hi
    ensures RawMeanEfficiency(ds) == Mean(SumList(Positives(ds, EfficiencyOf)), |Positives(ds, EfficiencyOf)|)
    ensures 0.0 < RawMeanEfficiency(ds) <= hi
  {
    var pos := Positives(ds, EfficiencyOf);
    assert forall i :: 0 <= i < |ds| ==> EfficiencyOf(ds[i]).None? || EfficiencyOf(ds[i]).value <= hi;
    PositivesBounded(ds, EfficiencyOf, hi);
    MeanBounds(pos, 0.0, hi);
    SumListPositive(pos);
  }

  /** With no positive per-day efficiency, the mean falls back to the overall realized share of the plan. */
  lemma MeanEfficiencyFallback(ds: seq<DailyRecord>)
    requires forall i :: 0 <= i < |ds| ==> ds[i].efficiency.None? || ds[i].efficiency.value <= 0.0
    ensures Sum(ds, PlannedOf) > 0 ==>
              RawMeanEfficiency(ds) == (Sum(ds, RealizedOf) as real / Sum(ds, PlannedOf) as real) * 100.0
    ensures Sum(ds, PlannedOf) <= 0 ==> RawMeanEfficiency(ds) == 0.0
  {
    assert forall i :: 0 <= i < |ds| ==> EfficiencyOf(ds[i]).None? || EfficiencyOf(ds[i]).value <= 0.0;
    PositivesNone(ds, EfficiencyOf);
  }

  /** The mean cost is the mean of the positive reference costs: positive when there are any, else 0. */
  lemma MeanCostSign(ds: seq<DailyRecord>)
    ensures Positives(ds, ReferenceCostOf) != [] ==> RawMeanCost(ds) > 0.0
    ensures (forall i :: 0 <= i < |ds| ==> ds[i].referenceCost.None? || ds[i].referenceCost.value <= 0.0)
            ==> RawMeanCost(ds) == 0.0
  {
    var pos := Positives(ds, ReferenceCostOf);
    if pos != [] {
      SumListPositive(pos);
    }
    if forall i :: 0 <= i < |ds| ==> ds[i].referenceCost.None? || ds[i].referenceCost.value <= 0.0 {
      assert forall i :: 0 <= i < |ds| ==> ReferenceCostOf(ds[i]).None? || ReferenceCostOf(ds[i]).value <= 0.0;
      PositivesNone(ds, ReferenceCostOf);
    }
  }
}
