/**
 * The calendar view: one row per branch with its cycles as bars over a strip of days.
 * It keeps a sticky colour per branch, derives the five phases of a cycle, places each
 * bar on the strip, and lets the user zoom and page through the weeks.
 */
module CalendarTimeline {
  import opened Types
  import opened Seqs
  import opened Days
  import opened Progress

  // ---------------------------------------------------------------------------
  // Branch colours
  // ---------------------------------------------------------------------------

  /** The hues of the branch palette. */
  datatype Hue =
    | Blue | Emerald | Violet | Amber | Rose | Cyan | Orange | Teal | Indigo | Pink
    | Lime | Fuchsia | Sky | Red | Green | Purple | Yellow | Slate | Stone | Zinc

  /** `FILIAL_COLORS`: twenty distinct hues, in this order. */
  const Palette: seq<Hue> :=
    [Blue, Emerald, Violet, Amber, Rose, Cyan, Orange, Teal, Indigo, Pink,
     Lime, Fuchsia, Sky, Red, Green, Purple, Yellow, Slate, Stone, Zinc]

  /** `FILIAL_COLORS.length`. */
  const PaletteSize := 20

  /** One `getFilialColor` call on a cache: a branch seen before keeps its colour; a new one gets the hue at its index. */
  function Assign(cache: map<int, Hue>, branchId: int, index: nat): (m: map<int, Hue>)
    ensures branchId in m
    ensures m.Keys == cache.Keys + {branchId}
    ensures forall id :: id in cache ==> m[id] == cache[id]
    ensures branchId !in cache ==> m[branchId] == Palette[index % PaletteSize]
  {
    if branchId in cache then cache else cache[branchId := Palette[index % PaletteSize]]
  }

  /** The cache after the calendar colours its rows in order: row i asks for the colour of `ids[i]` with index i. */
  function ColorRows(cache: map<int, Hue>, ids: seq<int>): map<int, Hue> {
    if ids == [] then cache
    else Assign(ColorRows(cache, ids[..|ids| - 1]), ids[|ids| - 1], |ids| - 1)
  }

  /** Colouring one more row is one more `getFilialColor` call. */
  lemma ColorRowsStep(cache: map<int, Hue>, ids: seq<int>, i: nat)
    requires i < |ids|
    ensures ColorRows(cache, ids[..i + 1]) == Assign(ColorRows(cache, ids[..i]), ids[i], i)
    ensures RowColors(cache, ids[..i + 1])
         == RowColors(cache, ids[..i]) + [Assign(ColorRows(cache, ids[..i]), ids[i], i)[ids[i]]]
  {
    assert ids[..i + 1][..i] == ids[..i];
  }

  /** The colour each row receives while the rows are coloured in order. */
  function RowColors(cache: map<int, Hue>, ids: seq<int>): (colors: seq<Hue>)
    ensures |colors| == |ids|
  {
    if ids == [] then []
    else RowColors(cache, ids[..|ids| - 1]) + [ColorRows(cache, ids)[ids[|ids| - 1]]]
  }

  /** Every row shows the colour its branch holds in the cache once all rows are coloured. */
  lemma {:induction false} RowColorsFinal(cache: map<int, Hue>, ids: seq<int>)
    ensures forall i :: 0 <= i < |ids| ==>
              ids[i] in ColorRows(cache, ids) && RowColors(cache, ids)[i] == ColorRows(cache, ids)[ids[i]]
  {
    if ids != [] {
      var init := ids[..|ids| - 1];
      RowColorsFinal(cache, init);
      forall i | 0 <= i < |init|
        ensures ids[i] in ColorRows(cache, ids) && RowColors(cache, ids)[i] == ColorRows(cache, ids)[ids[i]]
      {
        assert ids[i] == init[i];
        ColorsSticky(ColorRows(cache, init), [ids[|ids| - 1]], ids[i]);
        assert [ids[|ids| - 1]][..0] == [];
      }
    }
  }

  /** Once a branch has a colour, no later rendering, in any row order, changes it. */
  lemma {:induction false} ColorsSticky(cache: map<int, Hue>, ids: seq<int>, id: int)
    requires id in cache
    ensures id in ColorRows(cache, ids) && ColorRows(cache, ids)[id] == cache[id]
  {
    if ids != [] {
      ColorsSticky(cache, ids[..|ids| - 1], id);
    }
  }

  /** Every row's branch has a colour afterwards, and nothing else gains one. */
  lemma {:induction false} ColorRowsKeys(cache: map<int, Hue>, ids: seq<int>)
    ensures forall k :: k in ColorRows(cache, ids) <==> k in cache || k in ids
  {
    if ids != [] {
      var init := ids[..|ids| - 1];
      ColorRowsKeys(cache, init);
      assert ids == init + [ids[|ids| - 1]];
    }
  }

  /** On a fresh cache with distinct branches, row i gets the hue at position i mod 20. */
  lemma {:induction false} FreshColors(ids: seq<int>, i: nat)
    requires Distinct(ids)
    requires i < |ids|
    ensures ids[i] in ColorRows(map[], ids)
    ensures ColorRows(map[], ids)[ids[i]] == Palette[i % PaletteSize]
  {
    var init := ids[..|ids| - 1];
    if i == |ids| - 1 {
      ColorRowsKeys(map[], init);
    } else {
      FreshColors(init, i);
      assert init[i] == ids[i];
    }
  }

  /** The position of a hue in the palette. */
  function HueIndex(h: Hue): nat {
    match h
    case Blue => 0 case Emerald => 1 case Violet => 2 case Amber => 3 case Rose => 4
    case Cyan => 5 case Orange => 6 case Teal => 7 case Indigo => 8 case Pink => 9
    case Lime => 10 case Fuchsia => 11 case Sky => 12 case Red => 13 case Green => 14
    case Purple => 15 case Yellow => 16 case Slate => 17 case Stone => 18 case Zinc => 19
  }

  /** The palette lists every hue once: position i holds the hue whose index is i. */
  lemma PaletteIndex(i: nat)
    requires i < |Palette|
    ensures HueIndex(Palette[i]) == i
  {
  }

  lemma SmallIndex(i: nat)
    requires i < PaletteSize
    ensures i % PaletteSize == i
  {
  }

  /** Hence up to twenty branches on a fresh cache all get different colours. */
  lemma FreshColorsDistinct(ids: seq<int>, i: nat, j: nat)
    requires Distinct(ids) && |ids| <= PaletteSize
    requires i < j < |ids|
    ensures ids[i] in ColorRows(map[], ids) && ids[j] in ColorRows(map[], ids)
    ensures ColorRows(map[], ids)[ids[i]] != ColorRows(map[], ids)[ids[j]]
  {
    FreshColors(ids, i);
    FreshColors(ids, j);
    var ci, cj := ColorRows(map[], ids)[ids[i]], ColorRows(map[], ids)[ids[j]];
    SmallIndex(i);
    SmallIndex(j);
    PaletteIndex(i);
    PaletteIndex(j);
    assert HueIndex(ci) == i && HueIndex(cj) == j;
  }

  /** `filialColorMap`, the module-level cache that outlives every rendering. */
  class BranchColors {
    var colorOf: map<int, Hue>

    constructor()
      ensures colorOf == map[]
    {
      colorOf := map[];
    }

    /** `getFilialColor`. */
    method GetColor(branchId: int, index: nat) returns (color: Hue)
      modifies this
      ensures colorOf == Assign(old(colorOf), branchId, index)
      ensures color == colorOf[branchId]
      ensures branchId in old(colorOf) ==> color == old(colorOf)[branchId]
    {
      if branchId !in colorOf {
        colorOf := colorOf[branchId := Palette[index % PaletteSize]];
      }
      color := colorOf[branchId];
    }

    /** The colours of the rows as `filiais.map((filial, filialIndex) => getFilialColor(...))` asks for them. */
    method ColorAll(ids: seq<int>) returns (colors: seq<Hue>)
      modifies this
      ensures colorOf == ColorRows(old(colorOf), ids)
      ensures colors == RowColors(old(colorOf), ids)
    {
      colors := [];
      for i := 0 to |ids|
        invariant colorOf == ColorRows(old(colorOf), ids[..i])
        invariant colors == RowColors(old(colorOf), ids[..i])
      {
        var color := GetColor(ids[i], i);
        ColorRowsStep(old(colorOf), ids, i);
        colors := colors + [color];
      }
      assert ids[..|ids|] == ids;
    }
  }

  // ---------------------------------------------------------------------------
  // Phases of a cycle
  // ---------------------------------------------------------------------------

  /** One step of the calendar's tooltip. */
  datatype Phase = Phase(stage: Stage, status: PhaseStatus)

  function StatusOf(p: Phase): PhaseStatus { p.status }

  /** Cancelled, or neither sent, active nor concluded. */
  predicate NotUnderway(c: CycleWithMetric) {
    c.cycle.cancelled || (!IsSent(c) && !IsActive(c) && !IsConcluded(c))
  }

  /** The elapsed percentage is only read for a cycle that is underway and not concluded. */
  predicate ReadsProgress(c: CycleWithMetric) {
    !NotUnderway(c) && !IsConcluded(c)
  }

  /** The five steps with statuses given by position. */
  function ByIndex(status: int -> PhaseStatus): (ps: seq<Phase>)
    ensures |ps| == 5
    ensures forall i :: 0 <= i < 5 ==> ps[i] == Phase(Stages[i], status(i))
  {
    seq(5, i requires 0 <= i < 5 => Phase(Stages[i], status(i)))
  }

  /**
   * `getCicloPhases` of the calendar: a cycle that is cancelled or not underway has only
   * its request started (done once sent); a concluded one is done throughout; otherwise
   * the steps before the current phase are done and the current one is in progress.
   */
  function CalendarPhases(c: CycleWithMetric, today: Day): (ps: seq<Phase>)
    requires ReadsProgress(c) ==> WeekValid(c.cycle)
    ensures |ps| == 5
    ensures forall i :: 0 <= i < 5 ==> ps[i].stage == Stages[i]
  {
    if NotUnderway(c) then
      ByIndex(i => if i == 0 && IsSent(c) then Completed else if i == 0 then Ongoing else Pending)
    else if IsConcluded(c) then ByIndex(i => Completed)
    else
      var f := CurrentPhase(ElapsedPercent(c.cycle, today));
      ByIndex(i => if i < f then Completed else if i == f then Ongoing else Pending)
  }

  /** A cancelled or not yet started cycle: the request is done iff sent, otherwise in progress; the rest pending. */
  lemma NotUnderwayPhases(c: CycleWithMetric, today: Day)
    requires NotUnderway(c)
    ensures var ps := CalendarPhases(c, today);
            && (ps[0].status == Completed <==> c.cycle.sentAt.Some?)
            && (ps[0].status == Ongoing <==> c.cycle.sentAt.None?)
            && forall i :: 1 <= i < 5 ==> ps[i].status == Pending
  {
  }

  /** A concluded cycle that is not cancelled has every step done. */
  lemma ConcludedPhases(c: CycleWithMetric, today: Day)
    requires !c.cycle.cancelled && (c.cycle.concludedAt.Some? || c.status == Concluded)
    ensures forall i :: 0 <= i < 5 ==> CalendarPhases(c, today)[i].status == Completed
  {
  }

  /** Otherwise the steps before the current phase are done and the current one is in progress. */
  lemma UnderwayPhases(c: CycleWithMetric, today: Day)
    requires ReadsProgress(c) && WeekValid(c.cycle)
    ensures var ps := CalendarPhases(c, today);
            var f := CurrentPhase(ElapsedPercent(c.cycle, today));
            forall i :: 0 <= i < 5 ==> (ps[i].status == Completed <==> i < f) && (ps[i].status == Ongoing <==> i == f)
  {
  }

  /** In every case the done steps form a prefix and at most one step is in progress. */
  lemma PhasesInOrder(c: CycleWithMetric, today: Day)
    requires ReadsProgress(c) ==> WeekValid(c.cycle)
    ensures InOrder(StatusesOf(CalendarPhases(c, today), StatusOf))
  {
    var ps := CalendarPhases(c, today);
    if ReadsProgress(c) {
      var f := CurrentPhase(ElapsedPercent(c.cycle, today));
      assert forall i :: 0 <= i < 5 ==> ps[i].status == if i < f then Completed else if i == f then Ongoing else Pending;
    } else if NotUnderway(c) {
      assert forall i :: 1 <= i < 5 ==> ps[i].status == Pending;
    }
  }

  // ---------------------------------------------------------------------------
  // Placing a cycle on the strip
  // ---------------------------------------------------------------------------

  /** The width of one day column, in pixels. */
  const DayWidth := 45

  /** Where a cycle's bar goes: its left edge, its width, and whether it shows at all. */
  datatype Position = Position(left: int, width: int, isVisible: bool)

  /** `getCicloPosition`: offsets from the strip's first day, with a one-column minimum width. */
  function CyclePosition(c: Cycle, baseDate: Day, weeksToShow: int): (p: Position)
    ensures p.left >= 0 && p.width >= DayWidth
    ensures p.isVisible <==> c.weekEnd >= baseDate && c.weekStart < baseDate + weeksToShow * 7
  {
    var startOffset := c.weekStart - baseDate;
    var duration := c.weekEnd - c.weekStart + 1;
    Position(
      if startOffset * DayWidth > 0 then startOffset * DayWidth else 0,
      if duration * DayWidth - 4 > DayWidth then duration * DayWidth - 4 else DayWidth,
      startOffset + duration > 0 && startOffset < weeksToShow * 7)
  }

  /** A bar that starts inside the strip starts at its day's column, and a week of two or more days is 4 pixels short of its columns. */
  lemma PositionGeometry(c: Cycle, baseDate: Day, weeksToShow: int)
    ensures c.weekStart >= baseDate ==> CyclePosition(c, baseDate, weeksToShow).left == (c.weekStart - baseDate) * DayWidth
    ensures c.weekStart <= baseDate ==> CyclePosition(c, baseDate, weeksToShow).left == 0
    ensures c.weekEnd - c.weekStart >= 1 ==>
              CyclePosition(c, baseDate, weeksToShow).width == (c.weekEnd - c.weekStart + 1) * DayWidth - 4
  {
  }

  // ---------------------------------------------------------------------------
  // Rows by branch
  // ---------------------------------------------------------------------------

  /** One row of the calendar: a branch and its cycles. */
  datatype BranchRow = BranchRow(id: int, cycles: seq<CycleWithMetric>)

  function BranchOf(c: CycleWithMetric): int { c.cycle.branchId }
  function StartKey(c: CycleWithMetric): real { c.cycle.weekStart as real }

  /** An entry of the grouping Map: a branch id and its cycles in encounter order. */
  type Entry = (int, seq<CycleWithMetric>)

  function EntryKey(e: Entry): real { e.0 as real }
  function EntryId(e: Entry): int { e.0 }

  /** `Array.from(map.entries())`: one entry per branch, in order of first appearance. */
  function Entries(cs: seq<CycleWithMetric>): (es: seq<Entry>)
    ensures |es| == |Keys(cs, BranchOf)|
    ensures forall i :: 0 <= i < |es| ==> es[i] == (Keys(cs, BranchOf)[i], Group(cs, BranchOf, Keys(cs, BranchOf)[i]))
  {
    var ks := Keys(cs, BranchOf);
    seq(|ks|, i requires 0 <= i < |ks| => (ks[i], Group(cs, BranchOf, ks[i])))
  }

  /** An entry as a row, its cycles sorted by week start. */
  function RowOf(e: Entry): BranchRow {
    BranchRow(e.0, SortBy(e.1, StartKey))
  }

  function MapRows(es: seq<Entry>): (rows: seq<BranchRow>)
    ensures |rows| == |es|
    ensures forall i :: 0 <= i < |es| ==> rows[i] == RowOf(es[i])
  {
    seq(|es|, i requires 0 <= i < |es| => RowOf(es[i]))
  }

  /** The rows: the entries sorted by branch id, each list sorted by week start. */
  function BranchRows(cs: seq<CycleWithMetric>): seq<BranchRow> {
    MapRows(SortBy(Entries(cs), EntryKey))
  }

  /** The `filiais` memo: group the cycles into a Map by branch, then sort the entries and each list. */
  method GroupByBranch(cs: seq<CycleWithMetric>) returns (rows: seq<BranchRow>)
    ensures rows == BranchRows(cs)
  {
    var groups, order := GroupBy(cs, BranchOf);
    forall i | 0 <= i < |order| ensures order[i] in groups {
      var k := order[i];
      assert k in order;
      assert k in groups;
    }
    var entries := seq(|order|, i requires 0 <= i < |order| && order[i] in groups => (order[i], groups[order[i]]));
    assert entries == Entries(cs);
    rows := MapRows(SortBy(entries, EntryKey));
  }

  /** The entries carry distinct branch ids. */
  lemma EntriesDistinct(cs: seq<CycleWithMetric>)
    ensures DistinctBy(Entries(cs), EntryKey)
  {
    var es, ks := Entries(cs), Keys(cs, BranchOf);
    forall i, j | 0 <= i < j < |es| ensures EntryKey(es[i]) != EntryKey(es[j]) {
      assert ks[i] != ks[j];
    }
  }

  /** The rows go by strictly ascending branch id, so no branch has two rows. */
  lemma RowsAscending(cs: seq<CycleWithMetric>)
    ensures forall i, j :: 0 <= i < j < |BranchRows(cs)| ==> BranchRows(cs)[i].id < BranchRows(cs)[j].id
  {
    var sorted := SortBy(Entries(cs), EntryKey);
    SortBySorted(Entries(cs), EntryKey);
    EntriesDistinct(cs);
    SortByDistinctBy(Entries(cs), EntryKey, EntryKey);
    assert forall i, j :: 0 <= i < j < |sorted| ==> EntryKey(sorted[i]) < EntryKey(sorted[j]);
  }

  /** Each row holds exactly the group of its branch, sorted by week start. */
  lemma RowIsGroup(cs: seq<CycleWithMetric>, i: nat)
    requires i < |BranchRows(cs)|
    ensures var row := BranchRows(cs)[i];
            && row.cycles == SortBy(Group(cs, BranchOf, row.id), StartKey)
            && row.id in Keys(cs, BranchOf)
  {
    var sorted := SortBy(Entries(cs), EntryKey);
    SortByElements(Entries(cs), EntryKey);
    assert sorted[i] in Entries(cs);
  }

  /** Each row's cycles go by ascending week start and all belong to that row's branch. */
  lemma RowCyclesSorted(cs: seq<CycleWithMetric>, i: nat)
    requires i < |BranchRows(cs)|
    ensures SortedBy(BranchRows(cs)[i].cycles, StartKey)
    ensures forall c :: c in BranchRows(cs)[i].cycles ==> c.cycle.branchId == BranchRows(cs)[i].id
  {
    RowIsGroup(cs, i);
    var g := Group(cs, BranchOf, BranchRows(cs)[i].id);
    SortBySorted(g, StartKey);
    SortByElements(g, StartKey);
  }

  /** Every cycle is in the row of its own branch, and every cycle in a row comes from the input. */
  lemma RowsCover(cs: seq<CycleWithMetric>, c: CycleWithMetric)
    ensures c in cs ==> exists i :: 0 <= i < |BranchRows(cs)| && BranchRows(cs)[i].id == c.cycle.branchId
                                    && c in BranchRows(cs)[i].cycles
    ensures forall i :: 0 <= i < |BranchRows(cs)| && c in BranchRows(cs)[i].cycles ==> c in cs
  {
    var rows, es, ks := BranchRows(cs), Entries(cs), Keys(cs, BranchOf);
    var sorted := SortBy(es, EntryKey);
    SortByElements(es, EntryKey);
    if c in cs {
      var k :| 0 <= k < |cs| && cs[k] == c;
      assert BranchOf(cs[k]) in ks;
      var j :| 0 <= j < |ks| && ks[j] == c.cycle.branchId;
      assert es[j] in sorted;
      var i :| 0 <= i < |sorted| && sorted[i] == es[j];
      GroupMember(cs, BranchOf, k);
      SortByElements(Group(cs, BranchOf, ks[j]), StartKey);
      assert rows[i].id == c.cycle.branchId && c in rows[i].cycles;
    }
    forall i | 0 <= i < |rows| && c in rows[i].cycles ensures c in cs {
      RowIsGroup(cs, i);
      SortByElements(Group(cs, BranchOf, rows[i].id), StartKey);
      GroupElements(cs, BranchOf, rows[i].id);
    }
  }

  // ---------------------------------------------------------------------------
  // The view's navigation state
  // ---------------------------------------------------------------------------

  /** The fewest and the most weeks the strip shows. */
  const MinWeeks := 2
  const MaxWeeks := 8

  /** `baseDate` and `weeksToShow`: the first day of the strip and how many weeks it spans. */
  class CalendarView {
    var baseDate: Day
    var weeksToShow: int

    /** The strip starts on a Monday and spans between two and eight weeks. */
    ghost predicate Valid()
      reads this
    {
      MinWeeks <= weeksToShow <= MaxWeeks && Weekday(baseDate) == 0
    }

    /** The initial state: the Monday of last week, four weeks wide. */
    constructor(today: Day)
      ensures Valid()
      ensures baseDate == StartOfWeek(today - 7) && weeksToShow == 4
    {
      baseDate := StartOfWeek(today - 7);
      weeksToShow := 4;
    }

    /** Zoom in: one week fewer, never below two. */
    method ZoomIn()
      requires Valid()
      modifies this
      ensures Valid()
      ensures weeksToShow == if old(weeksToShow) - 1 > MinWeeks then old(weeksToShow) - 1 else MinWeeks
      ensures baseDate == old(baseDate)
    {
      weeksToShow := if weeksToShow - 1 > MinWeeks then weeksToShow - 1 else MinWeeks;
    }

    /** Zoom out: one week more, never above eight. */
    method ZoomOut()
      requires Valid()
      modifies this
      ensures Valid()
      ensures weeksToShow == if old(weeksToShow) + 1 < MaxWeeks then old(weeksToShow) + 1 else MaxWeeks
      ensures baseDate == old(baseDate)
    {
      weeksToShow := if weeksToShow + 1 < MaxWeeks then weeksToShow + 1 else MaxWeeks;
    }

    /** `goToPrevious`: back by as many weeks as are shown. */
    method Previous()
      requires Valid()
      modifies this
      ensures Valid()
      ensures baseDate == old(baseDate) - 7 * weeksToShow && weeksToShow == old(weeksToShow)
    {
      WeekdayShift(baseDate, -weeksToShow);
      baseDate := baseDate - 7 * weeksToShow;
    }

    /** `goToNext`: forward by as many weeks as are shown. */
    method Next()
      requires Valid()
      modifies this
      ensures Valid()
      ensures baseDate == old(baseDate) + 7 * weeksToShow && weeksToShow == old(weeksToShow)
    {
      WeekdayShift(baseDate, weeksToShow);
      baseDate := baseDate + 7 * weeksToShow;
    }

    /** `scrollToToday`: back to the Monday of last week, keeping the zoom. */
    method ScrollToToday(today: Day)
      requires Valid()
      modifies this
      ensures Valid()
      ensures baseDate == StartOfWeek(today - 7) && weeksToShow == old(weeksToShow)
    {
      baseDate := StartOfWeek(today - 7);
    }

    /** The `dias` memo: one cell per day of the shown weeks. */
    method DayStrip(today: Day) returns (days: seq<DayCell>)
      requires Valid()
      ensures days == Cells(baseDate, weeksToShow * 7, today)
      ensures forall i :: 0 <= i < |days| ==> (days[i].isFirstOfWeek <==> i % 7 == 0)
    {
      days := GenerateDays(baseDate, weeksToShow * 7, today);
      WeekStartsInStrip(baseDate, weeksToShow * 7, today);
    }

    /** `getCicloPosition` against the current strip. */
    function Position(c: Cycle): (p: Position)
      reads this
      ensures p == CyclePosition(c, baseDate, weeksToShow)
      ensures p.isVisible <==> c.weekEnd >= baseDate && c.weekStart < baseDate + weeksToShow * 7
    {
      CyclePosition(c, baseDate, weeksToShow)
    }
  }

  /** Scrolling to today puts today inside the strip, in its second week, at every zoom level. */
  lemma TodayOnStrip(weeks: int, today: Day)
    requires MinWeeks <= weeks <= MaxWeeks
    ensures var start := StartOfWeek(today - 7);
            start <= today < start + weeks * 7
  {
  }
}
