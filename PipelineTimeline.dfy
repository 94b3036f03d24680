/**
 * The pipeline view: the five phases of a cycle with a status and a progress bar each,
 * and the status buckets the view lists (active, planning, the last concluded ones).
 */
module PipelineTimeline {
  import opened Types
  import opened Seqs
  import opened Progress

  /** One step of the pipeline card, with its progress bar in percent. */
  datatype Phase = Phase(stage: Stage, status: PhaseStatus, progress: real)

  function StatusOf(p: Phase): PhaseStatus { p.status }

  /** The elapsed percentage is only read for an active cycle that is neither cancelled nor concluded. */
  predicate ReadsProgress(c: CycleWithMetric) {
    !c.cycle.cancelled && !IsConcluded(c) && IsActive(c)
  }

  /** Every step in one status with one progress. */
  function Uniform(st: PhaseStatus, progress: real): seq<Phase> {
    [Phase(Request, st, progress), Phase(Order, st, progress), Phase(Receiving, st, progress),
     Phase(Production, st, progress), Phase(Closing, st, progress)]
  }

  /** The first step as given, every later step pending with no progress. */
  function FirstOnly(st: PhaseStatus, progress: real): seq<Phase> {
    [Phase(Request, st, progress), Phase(Order, Pending, 0.0), Phase(Receiving, Pending, 0.0),
     Phase(Production, Pending, 0.0), Phase(Closing, Pending, 0.0)]
  }

  /** The phases of an active cycle at elapsed percentage `pg`. */
  function ActivePhases(pg: int): (ps: seq<Phase>)
    requires 0 <= pg <= 100
  {
    var f := CurrentPhase(pg);
    var pgr := pg as real;
    [ Phase(Request, Completed, 100.0),
      Phase(Order, if f >= 1 then Completed else Ongoing,
                   if f >= 1 then 100.0 else Cap100(pgr * 2.0)),
      Phase(Receiving, if f >= 2 then Completed else if f >= 1 then Ongoing else Pending,
                       if f >= 2 then 100.0 else if f >= 1 then Cap100((pgr - 20.0) * 2.5) else 0.0),
      Phase(Production, if f >= 3 then Completed else if f >= 2 then Ongoing else Pending,
                        if f >= 3 then 100.0 else if f >= 2 then Cap100((pgr - 40.0) * 2.5) else 0.0),
      Phase(Closing, if f >= 4 then Ongoing else Pending,
                     if f >= 4 then Cap100((pgr - 80.0) * 5.0) else 0.0) ]
  }

  /**
   * `getCicloPhases` of the pipeline: a cancelled cycle stops after its request; a concluded
   * one has every step done; an active one advances with the elapsed share of its week;
   * one still in planning has at most its request done.
   */
  function PipelinePhases(c: CycleWithMetric, today: Day): (ps: seq<Phase>)
    requires ReadsProgress(c) ==> WeekValid(c.cycle)
    ensures |ps| == 5
    ensures forall i :: 0 <= i < 5 ==> ps[i].stage == Stages[i]
    ensures forall i :: 0 <= i < 5 ==> 0.0 <= ps[i].progress <= 100.0
  {
    if c.cycle.cancelled then FirstOnly(Completed, 100.0)
    else if IsConcluded(c) then Uniform(Completed, 100.0)
    else if IsActive(c) then ActivePhases(ElapsedPercent(c.cycle, today))
    else FirstOnly(if IsSent(c) then Completed else Ongoing, if IsSent(c) then 100.0 else 50.0)
  }

  /** Cancellation wins over every other flag: the request is done, nothing else has started. */
  lemma CancelledPhases(c: CycleWithMetric, today: Day)
    requires c.cycle.cancelled
    ensures var ps := PipelinePhases(c, today);
            && ps[0].status == Completed && ps[0].progress == 100.0
            && forall i :: 1 <= i < 5 ==> ps[i].status == Pending && ps[i].progress == 0.0
  {
  }

  /** A concluded cycle that was not cancelled has every step done. */
  lemma ConcludedPhases(c: CycleWithMetric, today: Day)
    requires !c.cycle.cancelled && (c.cycle.concludedAt.Some? || c.status == Concluded)
    ensures forall i :: 0 <= i < 5 ==>
              PipelinePhases(c, today)[i].status == Completed && PipelinePhases(c, today)[i].progress == 100.0
  {
  }

  /**
   * An active cycle has its request done, step k (1 to 3) done exactly when the current
   * phase has reached k, and its closing step never done.
   */
  lemma ActiveCyclePhases(c: CycleWithMetric, today: Day)
    requires ReadsProgress(c) && WeekValid(c.cycle)
    ensures var ps := PipelinePhases(c, today);
            var f := CurrentPhase(ElapsedPercent(c.cycle, today));
            && ps[0].status == Completed
            && (forall k :: 1 <= k <= 3 ==> (ps[k].status == Completed <==> f >= k))
            && ps[4].status != Completed
            && (ps[4].status == Ongoing <==> f >= 4)
  {
  }

  /** A cycle still in planning has its request done when sent, half done otherwise, and nothing else started. */
  lemma PlanningPhases(c: CycleWithMetric, today: Day)
    requires !c.cycle.cancelled && !IsConcluded(c) && !IsActive(c)
    ensures var ps := PipelinePhases(c, today);
            && (ps[0].status == Completed <==> c.cycle.sentAt.Some?)
            && (ps[0].progress == if c.cycle.sentAt.Some? then 100.0 else 50.0)
            && (c.cycle.sentAt.None? ==> ps[0].status == Ongoing)
            && forall i :: 1 <= i < 5 ==> ps[i].status == Pending && ps[i].progress == 0.0
  {
  }

  /** In every case the steps are done in order and at most one is in progress. */
  lemma PhasesInOrder(c: CycleWithMetric, today: Day)
    requires ReadsProgress(c) ==> WeekValid(c.cycle)
    ensures InOrder(StatusesOf(PipelinePhases(c, today), StatusOf))
  {
    if c.cycle.cancelled {
      FirstOnlyInOrder(Completed, 100.0);
    } else if IsConcluded(c) {
      UniformInOrder(Completed, 100.0);
    } else if IsActive(c) {
      ActivePhasesInOrder(ElapsedPercent(c.cycle, today));
    } else {
      FirstOnlyInOrder(if IsSent(c) then Completed else Ongoing, if IsSent(c) then 100.0 else 50.0);
    }
  }

  lemma FirstOnlyInOrder(st: PhaseStatus, progress: real)
    ensures InOrder(StatusesOf(FirstOnly(st, progress), StatusOf))
  {
    assert StatusesOf(FirstOnly(st, progress), StatusOf) == [st, Pending, Pending, Pending, Pending];
  }

  lemma UniformInOrder(st: PhaseStatus, progress: real)
    requires st != Ongoing
    ensures InOrder(StatusesOf(Uniform(st, progress), StatusOf))
  {
    assert StatusesOf(Uniform(st, progress), StatusOf) == [st, st, st, st, st];
  }

  /** The steps of an active cycle are done up to the current phase, the next one in progress. */
  lemma ActivePhasesInOrder(pg: int)
    requires 0 <= pg <= 100
    ensures InOrder(StatusesOf(ActivePhases(pg), StatusOf))
  {
    var ps := ActivePhases(pg);
    var f := CurrentPhase(pg);
    var sts := StatusesOf(ps, StatusOf);
    assert sts == [Completed,
                   if f >= 1 then Completed else Ongoing,
                   if f >= 2 then Completed else if f >= 1 then Ongoing else Pending,
                   if f >= 3 then Completed else if f >= 2 then Ongoing else Pending,
                   if f >= 4 then Ongoing else Pending];
  }

  // ---------------------------------------------------------------------------
  // Status buckets
  // ---------------------------------------------------------------------------

  /** `ciclos.filter(c => c.status === st)`. */
  function WithStatus(cs: seq<CycleWithMetric>, st: CycleStatus): (r: seq<CycleWithMetric>)
    ensures |r| <= |cs|
    ensures forall i :: 0 <= i < |r| ==> r[i].status == st
  {
    if cs == [] then []
    else WithStatus(cs[..|cs| - 1], st) + (if cs[|cs| - 1].status == st then [cs[|cs| - 1]] else [])
  }

  /** The filter keeps exactly the cycles with that status. */
  lemma {:induction false} WithStatusMembers(cs: seq<CycleWithMetric>, st: CycleStatus, c: CycleWithMetric)
    ensures c in WithStatus(cs, st) <==> c in cs && c.status == st
  {
    if cs != [] {
      WithStatusMembers(cs[..|cs| - 1], st, c);
      assert cs == cs[..|cs| - 1] + [cs[|cs| - 1]];
    }
  }

  /** The four statuses split the list: the four filters together are as long as it. */
  lemma {:induction false} StatusesPartition(cs: seq<CycleWithMetric>)
    ensures |WithStatus(cs, InProgress)| + |WithStatus(cs, Planning)|
            + |WithStatus(cs, Concluded)| + |WithStatus(cs, Cancelled)| == |cs|
  {
    if cs != [] {
      StatusesPartition(cs[..|cs| - 1]);
    }
  }

  /** The cards the pipeline shows. */
  datatype Buckets = Buckets(
    active: seq<CycleWithMetric>,
    planning: seq<CycleWithMetric>,
    planningShown: seq<CycleWithMetric>,
    concluded: seq<CycleWithMetric>)

  /** The three filters, the concluded list cut to 5 and the planning cards cut to 6. */
  function BucketsOf(cs: seq<CycleWithMetric>): (b: Buckets)
    ensures b.active == WithStatus(cs, InProgress) && b.planning == WithStatus(cs, Planning)
    ensures |b.concluded| <= 5 && b.concluded == Take(WithStatus(cs, Concluded), 5)
    ensures |b.planningShown| <= 6 && b.planningShown == Take(b.planning, 6)
  {
    var planning := WithStatus(cs, Planning);
    Buckets(WithStatus(cs, InProgress), planning, Take(planning, 6), Take(WithStatus(cs, Concluded), 5))
  }

  /** Every shown card has the status of its bucket and comes from the input; no cycle is in two buckets. */
  lemma BucketsSound(cs: seq<CycleWithMetric>, c: CycleWithMetric)
    ensures var b := BucketsOf(cs);
            && (c in b.active <==> c in cs && c.status == InProgress)
            && (c in b.planning <==> c in cs && c.status == Planning)
            && (c in b.concluded ==> c in cs && c.status == Concluded)
            && (c in b.planningShown ==> c in b.planning)
            && !(c in b.active && c in b.planning)
            && !(c in b.active && c in b.concluded)
            && !(c in b.planning && c in b.concluded)
  {
    WithStatusMembers(cs, InProgress, c);
    WithStatusMembers(cs, Planning, c);
    WithStatusMembers(cs, Concluded, c);
  }
}
