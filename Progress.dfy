/**
 * How far a cycle's week has run, as the timeline components compute it from "today",
 * the current phase derived from that percentage, and the shape every phase list keeps.
 */
module Progress {
  import opened Types
  import opened Numbers

  /** The five lifecycle steps the calendar and the pipeline show, in this order. */
  datatype Stage = Request | Order | Receiving | Production | Closing

  const Stages: seq<Stage> := [Request, Order, Receiving, Production, Closing]

  /** A week that ends no earlier than it starts, so that it has at least one day. */
  predicate WeekValid(c: Cycle) {
    c.weekStart <= c.weekEnd
  }

  /** The flags the calendar's and the pipeline's `getCicloPhases` read off a cycle. */
  predicate IsSent(c: CycleWithMetric) { c.cycle.sentAt.Some? }
  predicate IsConcluded(c: CycleWithMetric) { c.cycle.concludedAt.Some? || c.status == Concluded }
  predicate IsActive(c: CycleWithMetric) { c.status == InProgress }

  /** `Math.min(100, x)`. */
  function Cap100(x: real): (r: real)
    ensures r <= 100.0
    ensures r == x || r == 100.0
  {
    if x < 100.0 then x else 100.0
  }

  /** `differenceInDays(semana_ate, semana_de) + 1`: the days of the cycle's week, both ends included. */
  function TotalDays(c: Cycle): int {
    c.weekEnd - c.weekStart + 1
  }

  /**
   * The calendar's and the pipeline's `progressoGeral`: the days since the week began
   * (none before it), as a rounded percentage of the week's days, capped at 100.
   */
  function ElapsedPercent(c: Cycle, today: Day): (pg: int)
    requires WeekValid(c)
    ensures 0 <= pg <= 100
    ensures today <= c.weekStart ==> pg == 0
    ensures today > c.weekEnd ==> pg == 100
  {
    var passed := if today - c.weekStart > 0 then today - c.weekStart else 0;
    var total := TotalDays(c);
    var ratio := passed as real / total as real;
    assert ratio * total as real == passed as real;
    assert (ratio - 1.0) * total as real == (passed - total) as real;
    SignOfProduct(ratio - 1.0, total as real);
    var rounded := RoundHalfUp(ratio * 100.0);
    if rounded < 100 then rounded else 100
  }

  /**
   * The Gantt chart's `progressoGeral`: the days since the week began, clamped to
   * [0, totalDias] before dividing, as a rounded percentage.
   */
  function GanttElapsedPercent(c: Cycle, today: Day): (pg: int)
    requires WeekValid(c)
    ensures 0 <= pg <= 100
  {
    var total := TotalDays(c);
    var capped := if today - c.weekStart < total then today - c.weekStart else total;
    var passed := if capped > 0 then capped else 0;
    var ratio := passed as real / total as real;
    ShareBounds(passed as real, total as real);
    RoundHalfUp(ratio * 100.0)
  }

  /** The two ways of computing the elapsed percentage agree on every day. */
  lemma ElapsedPercentsAgree(c: Cycle, today: Day)
    requires WeekValid(c)
    ensures GanttElapsedPercent(c, today) == ElapsedPercent(c, today)
  {
    var total := TotalDays(c);
    if today - c.weekStart >= total {
      assert total as real / total as real == 1.0;
    }
  }

  /** As the days go by, the elapsed percentage never goes down. */
  lemma ElapsedPercentMonotone(c: Cycle, today: Day, later: Day)
    requires WeekValid(c)
    requires today <= later
    ensures ElapsedPercent(c, today) <= ElapsedPercent(c, later)
  {
    var total := TotalDays(c) as real;
    var p1 := if today - c.weekStart > 0 then today - c.weekStart else 0;
    var p2 := if later - c.weekStart > 0 then later - c.weekStart else 0;
    var r1, r2 := p1 as real / total, p2 as real / total;
    assert r1 * total == p1 as real && r2 * total == p2 as real;
    assert (r2 - r1) * total == (p2 - p1) as real;
    SignOfProduct(r2 - r1, total);
    RoundMonotone(r1 * 100.0, r2 * 100.0);
  }

  /** `Math.floor((progressoGeral / 100) * 5)`: which of the five steps the week has reached, 5 past the end. */
  function CurrentPhase(pg: int): (f: int)
    requires 0 <= pg <= 100
    ensures 0 <= f <= 5
    ensures f == pg / 20
  {
    var x := (pg as real / 100.0) * 5.0;
    assert x == (pg / 20) as real + (pg % 20) as real / 20.0;
    x.Floor
  }

  /** The statuses of a list of phases, read off each phase by `status`. */
  function StatusesOf<P>(ps: seq<P>, status: P -> PhaseStatus): (sts: seq<PhaseStatus>)
    ensures |sts| == |ps|
    ensures forall i :: 0 <= i < |ps| ==> sts[i] == status(ps[i])
  {
    seq(|ps|, i requires 0 <= i < |ps| => status(ps[i]))
  }

  /**
   * The shape of a phase list: statuses never rise along the list (completed steps first,
   * then started ones, then pending ones), and at most one step is in progress.
   */
  ghost predicate InOrder(statuses: seq<PhaseStatus>) {
    && (forall i, j :: 0 <= i < j < |statuses| ==> statuses[i].Rank() >= statuses[j].Rank())
    && (forall i, j :: 0 <= i < j < |statuses| ==> !(statuses[i] == Ongoing && statuses[j] == Ongoing))
  }
}
