/**
 * Calendar days as day numbers: weekdays, the Monday that starts a week, and the
 * strip of day cells the calendar and the Gantt chart draw above their rows.
 */
module Days {
  import opened Types
  import opened Seqs

  /** The day of the week, Monday = 0 through Sunday = 6 (day 0, 1970-01-01, is a Thursday). */
  function Weekday(d: Day): (w: int)
    ensures 0 <= w < 7
  {
    (d + 3) % 7
  }

  /** `startOfWeek(d, { weekStartsOn: 1 })`: the Monday on or before `d`. */
  function StartOfWeek(d: Day): (s: Day)
    ensures s <= d < s + 7
    ensures Weekday(s) == 0
  {
    d - Weekday(d)
  }

  /** Saturday or Sunday. */
  function IsWeekend(d: Day): bool {
    Weekday(d) >= 5
  }

  /** One column of the day strip; the weekday and month labels are formatting and are not kept. */
  datatype DayCell = DayCell(date: Day, isToday: bool, isWeekend: bool, isFirstOfWeek: bool)

  function CellOf(d: Day, today: Day): DayCell {
    DayCell(d, d == today, IsWeekend(d), Weekday(d) == 0)
  }

  /** The strip of `n` days from `start`: column i shows day `start + i`. */
  function Cells(start: Day, n: nat, today: Day): (cells: seq<DayCell>)
    ensures |cells| == n
    ensures forall i :: 0 <= i < n ==> cells[i] == CellOf(start + i, today)
  {
    seq(n, i requires 0 <= i < n => CellOf(start + i, today))
  }

  /**
   * The `for (let i = 0; i < total; i++) result.push(...)` loop of the day-strip memos;
   * a non-positive count gives no columns.
   */
  method GenerateDays(start: Day, count: int, today: Day) returns (days: seq<DayCell>)
    ensures days == Cells(start, if count > 0 then count else 0, today)
  {
    days := [];
    var i := 0;
    while i < count
      invariant 0 <= i && (count > 0 ==> i <= count) && (count <= 0 ==> i == 0)
      invariant days == Cells(start, i, today)
    {
      days := days + [CellOf(start + i, today)];
      assert days == Cells(start, i + 1, today);
      i := i + 1;
    }
  }

  function IsTodayCell(c: DayCell): bool { c.isToday }

  /** Column i holds day `start + i`, so the days are consecutive. */
  lemma CellsConsecutive(start: Day, n: nat, today: Day)
    ensures forall i :: 0 <= i < n ==> Cells(start, n, today)[i].date == start + i
    ensures forall i :: 0 < i < n ==> Cells(start, n, today)[i].date == Cells(start, n, today)[i - 1].date + 1
  {
  }

  /** Exactly one column is marked as today when today is in the strip, and none otherwise. */
  lemma {:induction false} TodayMarkedOnce(start: Day, n: nat, today: Day)
    ensures Count(Cells(start, n, today), IsTodayCell) == if start <= today < start + n then 1 else 0
  {
    if n > 0 {
      var cells := Cells(start, n, today);
      assert cells[..n - 1] == Cells(start, n - 1, today);
      TodayMarkedOnce(start, n - 1, today);
      assert cells[n - 1].isToday <==> start + n - 1 == today;
    }
  }

  /** A day later the weekday advances by one, wrapping from Sunday to Monday. */
  lemma WeekdayNext(d: Day)
    ensures Weekday(d + 1) == if Weekday(d) == 6 then 0 else Weekday(d) + 1
  {
  }

  /** A week later it is the same weekday. */
  lemma WeekdayShift(d: Day, weeks: int)
    ensures Weekday(d + 7 * weeks) == Weekday(d)
  {
  }

  /** In a strip that starts on a Monday, weeks start exactly at the columns that are multiples of 7. */
  lemma WeekStartsInStrip(start: Day, n: nat, today: Day)
    requires Weekday(start) == 0
    ensures forall i :: 0 <= i < n ==> (Cells(start, n, today)[i].isFirstOfWeek <==> i % 7 == 0)
  {
    forall i | 0 <= i < n
      ensures Weekday(start + i) == i % 7
    {
      var q := (start + 3) / 7;
      assert start + 3 == 7 * q;
      assert start + i + 3 == 7 * q + i;
    }
  }
}
