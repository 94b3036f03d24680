/**
 * The Gantt chart of one cycle: the overall elapsed percentage, the strip of the week's
 * days, and five phases laid out over a seven-day template, each with its subtasks.
 */
module GanttView {
  import opened Types
  import opened Numbers
  import opened Days
  import opened Progress

  /** The five bars of the chart, in this order. */
  datatype Step = PlanningStep | ShoppingStep | PrepStep | ProductionStep | ClosingStep

  const Steps: seq<Step> := [PlanningStep, ShoppingStep, PrepStep, ProductionStep, ClosingStep]

  /** A subtask bar: its span in template days, its status and its progress in percent. */
  datatype Subtask = Subtask(startDay: real, endDay: real, status: PhaseStatus, progress: real)

  /** A phase bar with its subtasks. */
  datatype GanttPhase = GanttPhase(
    step: Step, startDay: real, endDay: real, status: PhaseStatus, progress: real, subtasks: seq<Subtask>)

  /** `progressoGeral` of the chart. */
  function GanttProgress(c: Cycle, today: Day): (pg: int)
    requires WeekValid(c)
    ensures 0 <= pg <= 100
    ensures pg == ElapsedPercent(c, today)
  {
    ElapsedPercentsAgree(c, today);
    GanttElapsedPercent(c, today)
  }

  /** The `dias` memo: one cell per day of the cycle's week, none when the week is empty. */
  method DayStrip(c: Cycle, today: Day) returns (days: seq<DayCell>)
    ensures WeekValid(c) ==> |days| == TotalDays(c)
    ensures !WeekValid(c) ==> days == []
    ensures forall i :: 0 <= i < |days| ==> days[i] == CellOf(c.weekStart + i, today)
  {
    days := GenerateDays(c.weekStart, TotalDays(c), today);
  }

  /** `Math.round((total_realizado / Math.max(1, total_planejado)) * 100)`. */
  function MealShare(c: Cycle): int {
    var divisor := if c.totalPlanned > 1 then c.totalPlanned else 1;
    RoundHalfUp(c.totalRealized as real / divisor as real * 100.0)
  }

  /**
   * The `phases` memo, given the cycle and the chart's elapsed percentage `pg`. Only the
   * cycle's status decides whether it is active or concluded; `sent` is its sending date.
   */
  function Phases(c: CycleWithMetric, pg: int): (ps: seq<GanttPhase>)
    ensures |ps| == 5
    ensures forall i :: 0 <= i < 5 ==> ps[i].step == Steps[i]
    ensures forall i :: 0 <= i < 5 ==> 0.0 <= ps[i].progress <= 100.0
  {
    var active := c.status == InProgress;
    var done := c.status == Concluded;
    var sent := c.cycle.sentAt.Some?;
    var p := pg as real;
    var share := MealShare(c.cycle) as real;
    [ GanttPhase(PlanningStep, 0.0, 1.0,
        if sent || active || done then Completed else Ongoing,
        if sent || active || done then 100.0 else 50.0,
        [ Subtask(0.0, 0.5, if sent then Completed else Ongoing, if sent then 100.0 else 70.0),
          Subtask(0.3, 0.8, if sent then Completed else Ongoing, if sent then 100.0 else 50.0),
          Subtask(0.7, 1.0, if sent then Completed else Pending, if sent then 100.0 else 0.0) ]),
      GanttPhase(ShoppingStep, 1.0, 2.5,
        if done then Completed else if active && pg >= 20 then Ongoing else if sent then Ongoing else Pending,
        if done then 100.0 else if active then Cap100(if (p - 15.0) * 3.0 > 0.0 then (p - 15.0) * 3.0 else 0.0) else 0.0,
        [ Subtask(1.0, 1.5, if done || (active && pg >= 25) then Completed else if active && pg >= 15 then Ongoing else Pending,
                  if done then 100.0 else 0.0),
          Subtask(1.3, 2.0, if done || (active && pg >= 30) then Completed else Pending, if done then 100.0 else 0.0),
          Subtask(1.8, 2.5, if done || (active && pg >= 35) then Completed else Pending, if done then 100.0 else 0.0) ]),
      GanttPhase(PrepStep, 2.0, 3.5,
        if done then Completed else if active && pg >= 40 then Ongoing else Pending,
        if done then 100.0 else if active && pg >= 40 then Cap100((p - 40.0) * 4.0) else 0.0,
        [ Subtask(2.0, 3.0, if done || (active && pg >= 50) then Completed else if active && pg >= 40 then Ongoing else Pending,
                  if done then 100.0 else 0.0),
          Subtask(2.5, 3.2, if done || (active && pg >= 55) then Completed else Pending, if done then 100.0 else 0.0),
          Subtask(2.8, 3.5, if done || (active && pg >= 60) then Completed else Pending, if done then 100.0 else 0.0) ]),
      GanttPhase(ProductionStep, 3.0, 6.0,
        if done then Completed else if active && pg >= 50 then Ongoing else Pending,
        if done then 100.0 else if active && pg >= 50 then Cap100((p - 50.0) * 2.5) else 0.0,
        [ Subtask(3.0, 6.0, if done then Completed else if active && pg >= 55 then Ongoing else Pending, if done then 100.0 else share),
          Subtask(3.0, 6.0, if done then Completed else if active && pg >= 55 then Ongoing else Pending, if done then 100.0 else share),
          Subtask(3.0, 6.0, if done then Completed else if active && pg >= 55 then Ongoing else Pending, if done then 100.0 else share) ]),
      GanttPhase(ClosingStep, 6.0, 7.0,
        if done then Completed else if active && pg >= 85 then Ongoing else Pending,
        if done then 100.0 else 0.0,
        [ Subtask(6.0, 6.5, if done then Completed else Pending, if done then 100.0 else 0.0),
          Subtask(6.3, 7.0, if done then Completed else Pending, if done then 100.0 else 0.0) ]) ]
  }

  /** The chart of a cycle on a given day. */
  function ChartPhases(c: CycleWithMetric, today: Day): (ps: seq<GanttPhase>)
    requires WeekValid(c.cycle)
    ensures ps == Phases(c, ElapsedPercent(c.cycle, today))
  {
    Phases(c, GanttProgress(c.cycle, today))
  }

  /**
   * A concluded cycle has every phase done at 100%, and every subtask after planning too.
   * The planning subtasks follow the sending date alone (see PlanningSubtasks).
   */
  lemma ConcludedChart(c: CycleWithMetric, pg: int)
    requires c.status == Concluded
    ensures forall i :: 0 <= i < 5 ==> Phases(c, pg)[i].status == Completed && Phases(c, pg)[i].progress == 100.0
    ensures forall i, j :: 1 <= i < 5 && 0 <= j < |Phases(c, pg)[i].subtasks| ==>
              Phases(c, pg)[i].subtasks[j].status == Completed && Phases(c, pg)[i].subtasks[j].progress == 100.0
  {
    var ps := Phases(c, pg);
    assert |ps[0].subtasks| == 3 && |ps[1].subtasks| == 3 && |ps[2].subtasks| == 3;
    assert |ps[3].subtasks| == 3 && |ps[4].subtasks| == 2;
  }

  /** The planning bar is done once the cycle is sent, active or concluded, and half done before. */
  lemma PlanningBar(c: CycleWithMetric, pg: int)
    ensures var ph := Phases(c, pg)[0];
            var started := c.cycle.sentAt.Some? || c.status == InProgress || c.status == Concluded;
            && (ph.status == Completed <==> started)
            && (ph.status == Ongoing <==> !started)
            && ph.progress == if started then 100.0 else 50.0
  {
  }

  /** The planning subtasks are all done exactly when the cycle has been sent, whatever its status. */
  lemma PlanningSubtasks(c: CycleWithMetric, pg: int)
    ensures var subs := Phases(c, pg)[0].subtasks;
            && |subs| == 3
            && (forall j :: 0 <= j < 3 ==> (subs[j].status == Completed <==> c.cycle.sentAt.Some?))
            && (forall j :: 0 <= j < 3 ==> (subs[j].progress == 100.0 <==> c.cycle.sentAt.Some?))
  {
  }

  /** The prep bar moves only once an active cycle is 40% through; the closing bar only when concluded. */
  lemma LateBarsWait(c: CycleWithMetric, pg: int)
    ensures Phases(c, pg)[2].progress != 0.0 ==> c.status == Concluded || (c.status == InProgress && pg >= 40)
    ensures Phases(c, pg)[4].progress != 0.0 ==> c.status == Concluded
    ensures c.status != Concluded ==> Phases(c, pg)[4].progress == 0.0
  {
  }

  /** Before conclusion, each meal subtask shows the realized share of the plan, dividing by at least 1. */
  lemma MealSubtasks(c: CycleWithMetric, pg: int)
    requires c.status != Concluded
    ensures var divisor := if c.cycle.totalPlanned > 1 then c.cycle.totalPlanned else 1;
            var exact := c.cycle.totalRealized as real / divisor as real * 100.0;
            && divisor >= 1
            && forall j :: 0 <= j < 3 ==>
                 -0.5 < Phases(c, pg)[3].subtasks[j].progress - exact <= 0.5
  {
  }

  /** Every subtask lies within its phase's span, and the phases start in order across the seven days. */
  lemma Layout(c: CycleWithMetric, pg: int)
    ensures forall i, j :: 0 <= i < 5 && 0 <= j < |Phases(c, pg)[i].subtasks| ==>
              Phases(c, pg)[i].startDay <= Phases(c, pg)[i].subtasks[j].startDay
              <= Phases(c, pg)[i].subtasks[j].endDay <= Phases(c, pg)[i].endDay
    ensures forall i :: 0 < i < 5 ==> Phases(c, pg)[i - 1].startDay <= Phases(c, pg)[i].startDay
    ensures Phases(c, pg)[0].startDay == 0.0 && Phases(c, pg)[4].endDay == 7.0
  {
    var ps := Phases(c, pg);
    assert |ps[0].subtasks| == 3 && |ps[1].subtasks| == 3 && |ps[2].subtasks| == 3;
    assert |ps[3].subtasks| == 3 && |ps[4].subtasks| == 2;
  }

  /** Bars never get further along down the chart: a later phase is never more done than an earlier one. */
  lemma StatusesDescend(c: CycleWithMetric, pg: int)
    ensures forall i, j :: 0 <= i < j < 5 ==> Phases(c, pg)[i].status.Rank() >= Phases(c, pg)[j].status.Rank()
  {
    var ps := Phases(c, pg);
    assert forall i :: 0 < i < 5 ==> ps[i - 1].status.Rank() >= ps[i].status.Rank();
  }
}
