/** The calendar screen: the 42-cell month grid, the treatments grouped by
    day, the dots drawn in a cell, the monthly statistics, and the month
    navigation state. */
module CalendarView {
  import opened Types
  import opened Strings
  import opened CalendarDates

  /** The background and dot colour classes of a treatment kind. */
  datatype KindColor = KindColor(bg: string, dot: string)

  function TreatmentColor(kind: TreatmentType): KindColor
  {
    match kind
    case Filling => KindColor("bg-blue-100", "bg-blue-500")
    case RootCanal => KindColor("bg-red-100", "bg-red-500")
    case Crown => KindColor("bg-yellow-100", "bg-yellow-500")
    case Extraction => KindColor("bg-slate-200", "bg-slate-500")
    case Veneer => KindColor("bg-purple-100", "bg-purple-500")
    case Hygiene => KindColor("bg-green-100", "bg-green-500")
    case Checkup => KindColor("bg-teal-100", "bg-teal-500")
    case Implant => KindColor("bg-gray-200", "bg-gray-600")
    case Braces => KindColor("bg-pink-100", "bg-pink-500")
    case Other => KindColor("bg-orange-100", "bg-orange-500")
  }

  /** The ten kinds get ten different dot colours. */
  lemma DotColorsDistinct(a: TreatmentType, b: TreatmentType)
    requires a != b
    ensures TreatmentColor(a).dot != TreatmentColor(b).dot
  {
    match a {
      case Filling => case RootCanal => case Crown => case Extraction => case Veneer =>
      case Implant => case Braces => case Hygiene => case Checkup => case Other =>
    }
  }

  /** The calendar legend: the first six kinds in declaration order. */
  function LegendKinds(): (r: seq<TreatmentType>)
    ensures |r| == 6 && r == TreatmentTypeValues()[..6]
    ensures TreatmentType.Braces !in r && Hygiene !in r && Checkup !in r && TreatmentType.Other !in r
  {
    TreatmentTypeValues()[..6]
  }

  /** One cell of the grid. */
  datatype Cell = Cell(day: int, isCurrentMonth: bool, date: string)

  /** The grid's leading cells: the weekday of the 1st, 0 (Sunday) to 6. */
  function Lead(y: int, m: int): (n: int)
    requires IsMonth(m)
    ensures 0 <= n < 7
  {
    Weekday(y, m, 1)
  }

  /** The day in cell `i` of a grid for month `m` of year `y` that starts
      with `lead` days of the previous month, which has `dp` days, followed by
      the `dim` days of month `m` and then by the first days of the next month. */
  function LayoutDay(y: int, m: int, lead: int, dp: int, dim: int, i: int): Day
    requires IsMonth(m)
  {
    if i < lead then
      var p := PrevMonth(y, m);
      Day(p.year, p.month, dp - lead + 1 + i)
    else if i < lead + dim then Day(y, m, i - lead + 1)
    else
      var n := NextMonth(y, m);
      Day(n.year, n.month, i - lead - dim + 1)
  }

  /** The day shown in cell `i` of the grid of month `m` of year `y`: the
      last `Lead` days of the previous month, the days of this month, and the
      first days of the next month. */
  function GridDay(y: int, m: int, i: int): Day
    requires IsMonth(m) && 0 <= i < 42
  {
    var p := PrevMonth(y, m);
    LayoutDay(y, m, Lead(y, m), DaysInMonth(p.year, p.month), DaysInMonth(y, m), i)
  }

  /** Every grid cell holds a real day of the calendar. */
  lemma GridDaysValid(y: int, m: int, i: int)
    requires IsMonth(m) && 0 <= i < 42
    ensures IsDay(GridDay(y, m, i))
  {
  }

  /** The grid is 42 consecutive days: each cell holds the day after its predecessor. */
  lemma {:induction false} GridConsecutive(y: int, m: int, i: int)
    requires IsMonth(m) && 0 <= i < 41
    ensures GridDay(y, m, i + 1) == NextDay(GridDay(y, m, i))
  {
    var lead, dim := Lead(y, m), DaysInMonth(y, m);
    var p := PrevMonth(y, m);
    if i + 1 == lead {
      PrevNextRoundTrip(y, m);
    }
  }

  /** Every cell stands under its weekday column: cell `i` falls on weekday `i % 7`. */
  lemma {:induction false} GridWeekdays(y: int, m: int, i: int)
    requires IsMonth(m) && 0 <= i < 42
    ensures var g := GridDay(y, m, i); IsMonth(g.month) && Weekday(g.year, g.month, g.day) == i % 7
  {
    var g := GridDay(y, m, i);
    WeekdayInMonth(g.year, g.month, g.day);
    if i < Lead(y, m) {
      PrevMonthWeekdays(y, m, i);
    } else if i >= Lead(y, m) + DaysInMonth(y, m) {
      NextMonthWeekdays(y, m, i);
    }
  }

  lemma {:induction false} PrevMonthWeekdays(y: int, m: int, i: int)
    requires IsMonth(m) && 0 <= i < Lead(y, m)
    ensures var g := GridDay(y, m, i); IsMonth(g.month) && Weekday(g.year, g.month, g.day) == i % 7
  {
    var lead, p := Lead(y, m), PrevMonth(y, m);
    var w, dp := Weekday(p.year, p.month, 1), DaysInMonth(p.year, p.month);
    var g := GridDay(y, m, i);
    assert g == Day(p.year, p.month, dp - lead + 1 + i);
    PrevNextRoundTrip(y, m);
    NextMonthWeekday(p.year, p.month);
    assert lead == (w + dp) % 7;
    WeekdayInMonth(p.year, p.month, g.day);
    ModOfDifference(w + g.day - 1, i, (w + dp) / 7);
  }

  lemma {:induction false} NextMonthWeekdays(y: int, m: int, i: int)
    requires IsMonth(m) && Lead(y, m) + DaysInMonth(y, m) <= i < 42
    ensures var g := GridDay(y, m, i); IsMonth(g.month) && Weekday(g.year, g.month, g.day) == i % 7
  {
    var lead, dim, n := Lead(y, m), DaysInMonth(y, m), NextMonth(y, m);
    var g := GridDay(y, m, i);
    assert g == Day(n.year, n.month, i - lead - dim + 1);
    NextMonthWeekday(y, m);
    var w := Weekday(n.year, n.month, 1);
    assert w == (lead + dim) % 7;
    WeekdayInMonth(n.year, n.month, g.day);
    ModOfDifference(w + g.day - 1, i, -((lead + dim) / 7));
  }

  /** The grid's days strictly increase, so no day appears twice. */
  lemma {:induction false} GridIncreasing(y: int, m: int, i: int, j: int)
    requires IsMonth(m) && 0 <= i < j < 42
    ensures Ordinal(GridDay(y, m, i)) < Ordinal(GridDay(y, m, j))
  {
  }

  /** Every day of the month appears in the grid, in cell `Lead + day - 1`. */
  lemma MonthDayInGrid(y: int, m: int, d: int)
    requires IsMonth(m) && 1 <= d <= DaysInMonth(y, m)
    ensures 0 <= Lead(y, m) + d - 1 < 42 && GridDay(y, m, Lead(y, m) + d - 1) == Day(y, m, d)
  {
  }

  /** The key of a grid day. */
  function GridKey(y: int, m: int, i: int): string
    requires IsMonth(m) && 0 <= i < 42
  {
    var g := GridDay(y, m, i);
    DateKey(g.year, g.month, g.day)
  }

  /** No two cells share a date key. */
  lemma {:induction false} GridKeysDistinct(y: int, m: int, i: int, j: int)
    requires IsMonth(m) && 0 <= i < 42 && 0 <= j < 42 && i != j
    ensures GridKey(y, m, i) != GridKey(y, m, j)
  {
    var a, b := GridDay(y, m, i), GridDay(y, m, j);
    if i < j { GridIncreasing(y, m, i, j); } else { GridIncreasing(y, m, j, i); }
    DateKeysDiffer(a.year, a.month, a.day, b.year, b.month, b.day);
  }

  /** The cell showing day `d`, inside or outside the displayed month. */
  function CellOf(d: Day, current: bool): (c: Cell)
    requires IsMonth(d.month) && 1 <= d.day <= 31
    ensures c.day == d.day && c.isCurrentMonth == current
  {
    Cell(d.day, current, DateKey(d.year, d.month, d.day))
  }

  /** The cells of `count` consecutive days of month `ym`, from day `first` on. */
  function Run(ym: YearMonth, first: int, count: nat, current: bool): (r: seq<Cell>)
    requires IsMonth(ym.month) && 1 <= first && first + count <= 32
    ensures |r| == count
  {
    seq(count, j requires 0 <= j < count => CellOf(Day(ym.year, ym.month, first + j), current))
  }

  lemma RunAt(ym: YearMonth, first: int, count: nat, current: bool, j: int)
    requires IsMonth(ym.month) && 1 <= first && first + count <= 32 && 0 <= j < count
    ensures Run(ym, first, count, current)[j] == CellOf(Day(ym.year, ym.month, first + j), current)
  {
  }

  /** Appending the next day's cell to a run extends the run by one. */
  lemma RunSnoc(cells0: seq<Cell>, cells: seq<Cell>, ym: YearMonth, first: int, count: nat, current: bool)
    requires IsMonth(ym.month) && 1 <= first && first + count + 1 <= 32
    requires cells == cells0 + Run(ym, first, count, current)
    ensures cells + [CellOf(Day(ym.year, ym.month, first + count), current)]
            == cells0 + Run(ym, first, count + 1, current)
  {
    var longer := Run(ym, first, count + 1, current);
    var extended := Run(ym, first, count, current) + [CellOf(Day(ym.year, ym.month, first + count), current)];
    forall j | 0 <= j < count + 1 ensures longer[j] == extended[j] {
      RunAt(ym, first, count + 1, current, j);
      if j < count {
        RunAt(ym, first, count, current, j);
      }
    }
    assert longer == extended;
  }

  /** The cells of a grid laid out as `LayoutDay` describes. */
  function Layout(y: int, m: int, lead: int, dp: int, dim: int): (r: seq<Cell>)
    requires IsMonth(m) && 0 <= lead < 7 && 28 <= dp <= 31 && 28 <= dim <= 31
    ensures |r| == 42
  {
    Run(PrevMonth(y, m), dp - lead + 1, lead, false)
    + Run(YearMonth(y, m), 1, dim, true)
    + Run(NextMonth(y, m), 1, 42 - lead - dim, false)
  }

  /** The grid as the three runs it is built from. */
  function Grid(y: int, m: int): (r: seq<Cell>)
    requires IsMonth(m)
    ensures |r| == 42
  {
    var p := PrevMonth(y, m);
    Layout(y, m, Lead(y, m), DaysInMonth(p.year, p.month), DaysInMonth(y, m))
  }

  /** Cell `i` of a layout is the cell of its day, marked as in the month exactly when it is. */
  lemma {:induction false} LayoutCells(y: int, m: int, lead: int, dp: int, dim: int, i: int)
    requires IsMonth(m) && 0 <= lead < 7 && 28 <= dp <= 31 && 28 <= dim <= 31 && 0 <= i < 42
    ensures var g := LayoutDay(y, m, lead, dp, dim, i);
            IsMonth(g.month) && 1 <= g.day <= 31
            && Layout(y, m, lead, dp, dim)[i] == CellOf(g, g.year == y && g.month == m)
  {
    if i < lead {
      LeadingCell(y, m, lead, dp, dim, i);
    } else if i < lead + dim {
      MonthCell(y, m, lead, dp, dim, i);
    } else {
      TrailingCell(y, m, lead, dp, dim, i);
    }
  }

  /** Indexing three concatenated sequences. */
  lemma ConcatAt(a: seq<Cell>, b: seq<Cell>, c: seq<Cell>, i: int)
    requires 0 <= i < |a| + |b| + |c|
    ensures (a + b + c)[i] == if i < |a| then a[i] else if i < |a| + |b| then b[i - |a|] else c[i - |a| - |b|]
  {
  }

  lemma LeadingCell(y: int, m: int, lead: int, dp: int, dim: int, i: int)
    requires IsMonth(m) && 28 <= dp <= 31 && 28 <= dim <= 31 && 0 <= i < lead < 7
    ensures var g := LayoutDay(y, m, lead, dp, dim, i);
            IsMonth(g.month) && 1 <= g.day <= 31 && !(g.year == y && g.month == m)
            && Layout(y, m, lead, dp, dim)[i] == CellOf(g, false)
  {
    var p := PrevMonth(y, m);
    var a := Run(p, dp - lead + 1, lead, false);
    ConcatAt(a, Run(YearMonth(y, m), 1, dim, true), Run(NextMonth(y, m), 1, 42 - lead - dim, false), i);
    RunAt(p, dp - lead + 1, lead, false, i);
  }

  lemma MonthCell(y: int, m: int, lead: int, dp: int, dim: int, i: int)
    requires IsMonth(m) && 28 <= dp <= 31 && 28 <= dim <= 31 && 0 <= lead < 7 && lead <= i < lead + dim
    ensures var g := LayoutDay(y, m, lead, dp, dim, i);
            IsMonth(g.month) && 1 <= g.day <= 31 && g.year == y && g.month == m
            && Layout(y, m, lead, dp, dim)[i] == CellOf(g, true)
  {
    var a := Run(PrevMonth(y, m), dp - lead + 1, lead, false);
    var b := Run(YearMonth(y, m), 1, dim, true);
    ConcatAt(a, b, Run(NextMonth(y, m), 1, 42 - lead - dim, false), i);
    RunAt(YearMonth(y, m), 1, dim, true, i - lead);
  }

  lemma TrailingCell(y: int, m: int, lead: int, dp: int, dim: int, i: int)
    requires IsMonth(m) && 28 <= dp <= 31 && 0 <= lead < 7 && 28 <= dim <= 31 && lead + dim <= i < 42
    ensures var g := LayoutDay(y, m, lead, dp, dim, i);
            IsMonth(g.month) && 1 <= g.day <= 31 && !(g.year == y && g.month == m)
            && Layout(y, m, lead, dp, dim)[i] == CellOf(g, false)
  {
    var n := NextMonth(y, m);
    var a := Run(PrevMonth(y, m), dp - lead + 1, lead, false);
    var b := Run(YearMonth(y, m), 1, dim, true);
    ConcatAt(a, b, Run(n, 1, 42 - lead - dim, false), i);
    RunAt(n, 1, 42 - lead - dim, false, i - lead - dim);
  }

  /** Cell `i` of the grid is the cell of grid day `i`, keyed by its date and
      marked as in the month exactly when it is. */
  lemma {:induction false} GridCells(y: int, m: int, i: int)
    requires IsMonth(m) && 0 <= i < 42
    ensures var g := GridDay(y, m, i);
            IsMonth(g.month) && 1 <= g.day <= 31
            && Grid(y, m)[i] == CellOf(g, g.year == y && g.month == m)
  {
    var p := PrevMonth(y, m);
    LayoutCells(y, m, Lead(y, m), DaysInMonth(p.year, p.month), DaysInMonth(y, m), i);
  }

  /** A sequence made of the three runs, in order, is the grid. */
  lemma GridFromRuns(y: int, m: int, tail: seq<Cell>, body: seq<Cell>, cells: seq<Cell>)
    requires IsMonth(m)
    requires var lead, dim, p := Lead(y, m), DaysInMonth(y, m), PrevMonth(y, m);
      tail == Run(p, DaysInMonth(p.year, p.month) - lead + 1, lead, false)
      && body == tail + Run(YearMonth(y, m), 1, dim, true)
      && cells == body + Run(NextMonth(y, m), 1, 42 - lead - dim, false)
    ensures cells == Grid(y, m)
  {
  }

  /** The first loop of `calendarDays`: the last `lead` days of month `prev`,
      which has `dp` days, counted down from `lead - 1` to 0. */
  method PushPrevMonthDays(cells0: seq<Cell>, prev: YearMonth, dp: int, lead: int) returns (cells: seq<Cell>)
    requires IsMonth(prev.month) && 28 <= dp <= 31 && 0 <= lead < 7
    ensures cells == cells0 + Run(prev, dp - lead + 1, lead, false)
  {
    cells := cells0;
    ghost var first, pushed := dp - lead + 1, 0;
    var i := lead - 1;
    while i >= 0
      invariant -1 <= i < lead && pushed == lead - 1 - i
      invariant cells == cells0 + Run(prev, first, pushed, false)
    {
      RunSnoc(cells0, cells, prev, first, pushed, false);
      var day := dp - i;
      cells := cells + [CellOf(Day(prev.year, prev.month, day), false)];
      i, pushed := i - 1, pushed + 1;
    }
  }

  /** The second loop: days 1 to `dim` of the displayed month. */
  method PushMonthDays(cells0: seq<Cell>, current: YearMonth, dim: int) returns (cells: seq<Cell>)
    requires IsMonth(current.month) && 28 <= dim <= 31
    ensures cells == cells0 + Run(current, 1, dim, true)
  {
    cells := cells0;
    var day := 1;
    while day <= dim
      invariant 1 <= day <= dim + 1
      invariant cells == cells0 + Run(current, 1, day - 1, true)
    {
      RunSnoc(cells0, cells, current, 1, day - 1, true);
      cells := cells + [CellOf(Day(current.year, current.month, day), true)];
      day := day + 1;
    }
  }

  /** The third loop: the first days of month `next`, until there are 42 cells. */
  method PushNextMonthDays(cells0: seq<Cell>, next: YearMonth) returns (cells: seq<Cell>)
    requires IsMonth(next.month) && 11 <= |cells0| <= 42
    ensures cells == cells0 + Run(next, 1, 42 - |cells0|, false)
    ensures |cells| == 42
  {
    cells := cells0;
    var remainingCells := 42 - |cells0|;
    var day := 1;
    while day <= remainingCells
      invariant 1 <= day <= remainingCells + 1
      invariant cells == cells0 + Run(next, 1, day - 1, false)
    {
      RunSnoc(cells0, cells, next, 1, day - 1, false);
      cells := cells + [CellOf(Day(next.year, next.month, day), false)];
      day := day + 1;
    }
  }

  /** `calendarDays`: the previous month's tail, the month's days and the
      next month's head, 42 cells in all. */
  method CalendarDays(year: int, month: int) returns (cells: seq<Cell>)
    requires IsMonth(month)
    ensures cells == Grid(year, month)
  {
    var firstDayOfMonth := Lead(year, month);
    var daysInMonth := DaysInMonth(year, month);
    var prev := PrevMonth(year, month);
    var daysInPrevMonth := DaysInMonth(prev.year, prev.month);
    var tail := PushPrevMonthDays([], prev, daysInPrevMonth, firstDayOfMonth);
    var body := PushMonthDays(tail, YearMonth(year, month), daysInMonth);
    cells := PushNextMonthDays(body, NextMonth(year, month));
    GridFromRuns(year, month, tail, body, cells);
  }

  /** Distinct cells of the grid carry distinct dates, so the today marker
      (a cell whose date equals today's key) lands on at most one cell. */
  lemma {:induction false} GridDatesDistinct(y: int, m: int, i: int, j: int)
    requires IsMonth(m) && 0 <= i < 42 && 0 <= j < 42 && i != j
    ensures Grid(y, m)[i].date != Grid(y, m)[j].date
  {
    GridCells(y, m, i);
    GridCells(y, m, j);
    GridKeysDistinct(y, m, i, j);
  }

  /** `t.date.split('T')[0]`: the day part of a treatment's timestamp. */
  function DayKey(t: Treatment): (k: string)
    ensures k <= t.date && 'T' !in k
  {
    BeforeFirst(t.date, 'T')
  }

  /** The treatments of `ts` whose day key is `k`, in their order in `ts`. */
  function Bucket(ts: seq<Treatment>, k: string): seq<Treatment>
  {
    if ts == [] then []
    else
      var last := ts[|ts| - 1];
      Bucket(ts[..|ts| - 1], k) + (if DayKey(last) == k then [last] else [])
  }

  /** Each occurrence of a treatment lands in the bucket of its own day key
      and in no other. */
  lemma {:induction false} BucketCount(ts: seq<Treatment>, k: string, t: Treatment)
    ensures multiset(Bucket(ts, k))[t] == if DayKey(t) == k then multiset(ts)[t] else 0
  {
    if ts != [] {
      var n := |ts| - 1;
      BucketCount(ts[..n], k, t);
      assert ts == ts[..n] + [ts[n]];
    }
  }

  /** Bucketing a concatenation buckets each part, in order. */
  lemma {:induction false} BucketAppend(a: seq<Treatment>, b: seq<Treatment>, k: string)
    ensures Bucket(a + b, k) == Bucket(a, k) + Bucket(b, k)
  {
    if b != [] {
      var n := |b| - 1;
      assert (a + b)[..|a + b| - 1] == a + b[..n];
      BucketAppend(a, b[..n], k);
    } else {
      assert a + b == a;
    }
  }

  /** A bucket is non-empty exactly when some treatment has that day key. */
  lemma {:induction false} BucketNonEmpty(ts: seq<Treatment>, k: string)
    ensures Bucket(ts, k) != [] <==> exists j :: 0 <= j < |ts| && DayKey(ts[j]) == k
  {
    if ts != [] {
      var n := |ts| - 1;
      BucketNonEmpty(ts[..n], k);
      if exists j :: 0 <= j < |ts| && DayKey(ts[j]) == k {
        var j :| 0 <= j < |ts| && DayKey(ts[j]) == k;
        if j < n {
          assert ts[..n][j] == ts[j];
        }
      }
      if exists j :: 0 <= j < n && DayKey(ts[..n][j]) == k {
        var j :| 0 <= j < n && DayKey(ts[..n][j]) == k;
        assert ts[j] == ts[..n][j];
      }
    }
  }

  /** Adding one treatment to a list adds it at the end of its own bucket. */
  lemma BucketSnoc(s: seq<Treatment>, t: Treatment, k: string)
    ensures Bucket(s + [t], k) == Bucket(s, k) + (if DayKey(t) == k then [t] else [])
  {
    assert (s + [t])[..|s|] == s;
  }

  /** The grouping of `s` with one more treatment `t` added in place. */
  lemma GroupStep(ts: seq<Treatment>, i: nat, before: map<string, seq<Treatment>>,
                  after: map<string, seq<Treatment>>)
    requires i < |ts|
    requires forall k :: k in before <==> Bucket(ts[..i], k) != []
    requires forall k :: k in before ==> before[k] == Bucket(ts[..i], k)
    requires after == before[DayKey(ts[i]) := (if DayKey(ts[i]) in before then before[DayKey(ts[i])] else []) + [ts[i]]]
    ensures forall k :: k in after <==> Bucket(ts[..i + 1], k) != []
    ensures forall k :: k in after ==> after[k] == Bucket(ts[..i + 1], k)
  {
    var s, t := ts[..i], ts[i];
    assert ts[..i + 1] == s + [t];
    forall k ensures (k in after <==> Bucket(s + [t], k) != [])
                     && (k in after ==> after[k] == Bucket(s + [t], k)) {
      BucketSnoc(s, t, k);
    }
  }

  /** The `forEach` callback of `treatmentsByDate`: open the day's group if
      it is missing, then append the treatment to it. */
  method AddToGroup(byDate: map<string, seq<Treatment>>, t: Treatment) returns (after: map<string, seq<Treatment>>)
    ensures after == byDate[DayKey(t) := (if DayKey(t) in byDate then byDate[DayKey(t)] else []) + [t]]
  {
    after := byDate;
    var dateKey := DayKey(t);
    if dateKey !in after {
      after := after[dateKey := []];
    }
    after := after[dateKey := after[dateKey] + [t]];
  }

  /** `treatmentsByDate`: the treatments grouped by day key, each group in
      input order; a key is present exactly when its group is non-empty. */
  method GroupByDate(ts: seq<Treatment>) returns (byDate: map<string, seq<Treatment>>)
    ensures forall k :: k in byDate <==> Bucket(ts, k) != []
    ensures forall k :: k in byDate ==> byDate[k] == Bucket(ts, k)
  {
    byDate := map[];
    var i := 0;
    while i < |ts|
      invariant 0 <= i <= |ts|
      invariant forall k :: k in byDate <==> Bucket(ts[..i], k) != []
      invariant forall k :: k in byDate ==> byDate[k] == Bucket(ts[..i], k)
    {
      var before := byDate;
      byDate := AddToGroup(byDate, ts[i]);
      GroupStep(ts, i, before, byDate);
      i := i + 1;
    }
    assert ts[..|ts|] == ts;
  }

  /** `treatmentsByDate[cell.date] || []`: the treatments of a cell's day. */
  function DayTreatments(byDate: map<string, seq<Treatment>>, date: string): seq<Treatment>
  {
    if date in byDate then byDate[date] else []
  }

  /** Looking a cell up in the grouping gives exactly its day's bucket. */
  lemma CellLookup(ts: seq<Treatment>, byDate: map<string, seq<Treatment>>, date: string)
    requires forall k :: k in byDate <==> Bucket(ts, k) != []
    requires forall k :: k in byDate ==> byDate[k] == Bucket(ts, k)
    ensures DayTreatments(byDate, date) == Bucket(ts, date)
  {
  }

  /** A click on a cell: the date and its treatments are handed on only when
      the cell has treatments; otherwise the button is disabled. */
  function SelectDate(date: string, dayTreatments: seq<Treatment>): (r: Option<(string, seq<Treatment>)>)
    ensures r.Some? <==> dayTreatments != []
    ensures r.Some? ==> r.value == (date, dayTreatments)
  {
    if |dayTreatments| > 0 then Some((date, dayTreatments)) else None
  }

  /** The marks drawn in a cell: one dot per treatment for the first three,
      then a "+N" counter for the rest. */
  datatype Dots = Dots(colors: seq<string>, more: Option<int>)

  function DotsOf(dayTreatments: seq<Treatment>): (d: Dots)
    ensures |d.colors| == if |dayTreatments| <= 3 then |dayTreatments| else 3
    ensures forall i :: 0 <= i < |d.colors| ==> d.colors[i] == TreatmentColor(dayTreatments[i].kind).dot
    ensures d.more.Some? <==> |dayTreatments| > 3
    ensures d.more.Some? ==> d.more.value > 0 && |d.colors| + d.more.value == |dayTreatments|
  {
    var shown := if |dayTreatments| <= 3 then dayTreatments else dayTreatments[..3];
    Dots(seq(|shown|, i requires 0 <= i < |shown| => TreatmentColor(shown[i].kind).dot),
         if |dayTreatments| > 3 then Some(|dayTreatments| - 3) else None)
  }

  /** The treatments dated in month `m` of year `y`. `monthOf` is the local
      year and month of the instant a date string denotes (`new Date(d)`). */
  function MonthTreatments(ts: seq<Treatment>, y: int, m: int, monthOf: string -> YearMonth): (r: seq<Treatment>)
    ensures |r| <= |ts|
    ensures forall t :: t in r ==> t in ts && monthOf(t.date) == YearMonth(y, m)
    ensures forall t :: t in ts && monthOf(t.date) == YearMonth(y, m) ==> t in r
  {
    if ts == [] then []
    else
      (if monthOf(ts[0].date) == YearMonth(y, m) then [ts[0]] else []) + MonthTreatments(ts[1..], y, m, monthOf)
  }

  /** Each treatment of the month appears in the filtered list as many times
      as in the log, and every other treatment not at all. */
  lemma {:induction false} MonthTreatmentsCount(ts: seq<Treatment>, y: int, m: int, monthOf: string -> YearMonth,
                                                t: Treatment)
    ensures multiset(MonthTreatments(ts, y, m, monthOf))[t]
            == if monthOf(t.date) == YearMonth(y, m) then multiset(ts)[t] else 0
  {
    if ts != [] {
      assert ts == [ts[0]] + ts[1..];
      MonthTreatmentsCount(ts[1..], y, m, monthOf, t);
    }
  }

  /** Filtering a concatenation filters each part, in order: the month's
      treatments keep their order in the log. */
  lemma {:induction false} MonthTreatmentsAppend(a: seq<Treatment>, b: seq<Treatment>, y: int, m: int,
                                                 monthOf: string -> YearMonth)
    ensures MonthTreatments(a + b, y, m, monthOf)
            == MonthTreatments(a, y, m, monthOf) + MonthTreatments(b, y, m, monthOf)
  {
    if a == [] {
      assert a + b == b;
    } else {
      var h := if monthOf(a[0].date) == YearMonth(y, m) then [a[0]] else [];
      var ab := a + b;
      assert ab[0] == a[0] && ab[1..] == a[1..] + b;
      assert MonthTreatments(ab, y, m, monthOf) == h + MonthTreatments(a[1..] + b, y, m, monthOf);
      MonthTreatmentsAppend(a[1..], b, y, m, monthOf);
      var fa, fb := MonthTreatments(a[1..], y, m, monthOf), MonthTreatments(b, y, m, monthOf);
      assert h + (fa + fb) == (h + fa) + fb;
    }
  }

  /** The set of day keys of a list of treatments. */
  function DayKeys(s: seq<Treatment>): (r: set<string>)
    ensures |r| <= |s|
    ensures r == {} <==> s == []
  {
    if s == [] then {}
    else
      var rest := DayKeys(s[1..]);
      assert |{DayKey(s[0])} + rest| <= 1 + |rest|;
      {DayKey(s[0])} + rest
  }

  /** A key is in the set exactly when some treatment of the list has it. */
  lemma {:induction false} DayKeysMembers(s: seq<Treatment>, k: string)
    ensures k in DayKeys(s) <==> exists j :: 0 <= j < |s| && DayKey(s[j]) == k
  {
    if s != [] {
      DayKeysMembers(s[1..], k);
      if exists j :: 0 <= j < |s| && DayKey(s[j]) == k {
        var j :| 0 <= j < |s| && DayKey(s[j]) == k;
        if j > 0 {
          assert s[1..][j - 1] == s[j];
        }
      }
      if exists j :: 0 <= j < |s| - 1 && DayKey(s[1..][j]) == k {
        var j :| 0 <= j < |s| - 1 && DayKey(s[1..][j]) == k;
        assert s[j + 1] == s[1..][j];
      }
    }
  }

  /** `t.currency || 'USD'`: an empty currency counts as US dollars. */
  function PaidCurrency(t: Treatment): (c: string)
    ensures c != ""
    ensures t.currency != "" ==> c == t.currency
    ensures t.currency == "" ==> c == "USD"
  {
    if t.currency != "" then t.currency else "USD"
  }

  /** The currencies of the treatments with a truthy cost. */
  function PaidCurrencies(s: seq<Treatment>): set<string>
  {
    if s == [] then {}
    else
      var last := s[|s| - 1];
      PaidCurrencies(s[..|s| - 1]) + (if Truthy(last.cost) then {PaidCurrency(last)} else {})
  }

  /** The total of the truthy costs paid in currency `c`. */
  function Spent(s: seq<Treatment>, c: string): int
  {
    if s == [] then 0
    else
      var last := s[|s| - 1];
      Spent(s[..|s| - 1], c) + (if Truthy(last.cost) && PaidCurrency(last) == c then last.cost.value else 0)
  }

  /** No total is ever kept under the empty currency. */
  lemma {:induction false} NoEmptyCurrency(s: seq<Treatment>)
    ensures "" !in PaidCurrencies(s)
  {
    if s != [] {
      NoEmptyCurrency(s[..|s| - 1]);
    }
  }

  /** A currency gets an entry only from some treatment with a truthy cost in it. */
  lemma {:induction false} PaidCurrencyWitness(s: seq<Treatment>, c: string)
    requires c in PaidCurrencies(s)
    ensures exists j :: 0 <= j < |s| && Truthy(s[j].cost) && PaidCurrency(s[j]) == c
  {
    var n := |s| - 1;
    if c in PaidCurrencies(s[..n]) {
      PaidCurrencyWitness(s[..n], c);
      var j :| 0 <= j < n && Truthy(s[..n][j].cost) && PaidCurrency(s[..n][j]) == c;
      assert s[j] == s[..n][j];
    } else {
      assert Truthy(s[n].cost) && PaidCurrency(s[n]) == c;
    }
  }

  /** A currency nothing was paid in has a zero total. */
  lemma {:induction false} NothingSpentUnpaid(s: seq<Treatment>, c: string)
    requires c !in PaidCurrencies(s)
    ensures Spent(s, c) == 0
  {
    if s != [] {
      NothingSpentUnpaid(s[..|s| - 1], c);
    }
  }

  /** Totals split over a concatenation. */
  lemma {:induction false} SpentAppend(a: seq<Treatment>, b: seq<Treatment>, c: string)
    ensures Spent(a + b, c) == Spent(a, c) + Spent(b, c)
  {
    if b != [] {
      var n := |b| - 1;
      assert (a + b)[..|a + b| - 1] == a + b[..n];
      SpentAppend(a, b[..n], c);
    } else {
      assert a + b == a;
    }
  }

  /** A treatment without a truthy cost adds to no total. */
  lemma {:induction false} UnpaidAddsNothing(s: seq<Treatment>, t: Treatment, c: string)
    requires !Truthy(t.cost)
    ensures Spent(s + [t], c) == Spent(s, c) && PaidCurrencies(s + [t]) == PaidCurrencies(s)
  {
    assert (s + [t])[..|s|] == s;
  }

  /** The totals of `s` with one more treatment `t` added in place. */
  lemma MoneyStep(ts: seq<Treatment>, i: nat, before: map<string, int>, after: map<string, int>)
    requires i < |ts|
    requires before.Keys == PaidCurrencies(ts[..i])
    requires forall c :: c in before ==> before[c] == Spent(ts[..i], c)
    requires !Truthy(ts[i].cost) ==> after == before
    requires Truthy(ts[i].cost) ==>
      after == before[PaidCurrency(ts[i]) := (if PaidCurrency(ts[i]) in before then before[PaidCurrency(ts[i])] else 0) + ts[i].cost.value]
    ensures after.Keys == PaidCurrencies(ts[..i + 1])
    ensures forall c :: c in after ==> after[c] == Spent(ts[..i + 1], c)
  {
    var s, t := ts[..i], ts[i];
    var s' := ts[..i + 1];
    assert s' == s + [t];
    assert s'[..|s'| - 1] == s && s'[|s'| - 1] == t;
    assert PaidCurrencies(s') == PaidCurrencies(s) + (if Truthy(t.cost) then {PaidCurrency(t)} else {});
    forall c ensures Spent(s', c) == Spent(s, c) + (if Truthy(t.cost) && PaidCurrency(t) == c then t.cost.value else 0) {
    }
    if Truthy(t.cost) && PaidCurrency(t) !in before {
      NothingSpentUnpaid(s, PaidCurrency(t));
    }
  }

  /** The `forEach` callback of `moneyByCurrency`: a truthy cost is added to
      the running total of its currency (US dollars when none is given). */
  method AddCost(money: map<string, int>, t: Treatment) returns (after: map<string, int>)
    ensures !Truthy(t.cost) ==> after == money
    ensures Truthy(t.cost) ==>
      after == money[PaidCurrency(t) := (if PaidCurrency(t) in money then money[PaidCurrency(t)] else 0) + t.cost.value]
  {
    after := money;
    if t.cost.Some? && t.cost.value != 0 {
      var curr := if t.currency != "" then t.currency else "USD";
      var sofar := if curr in after then after[curr] else 0;
      after := after[curr := sofar + t.cost.value];
    }
  }

  /** `moneyByCurrency`: one total per currency that some treatment with a
      truthy cost was paid in. */
  method MoneyByCurrency(s: seq<Treatment>) returns (money: map<string, int>)
    ensures money.Keys == PaidCurrencies(s)
    ensures forall c :: c in money ==> money[c] == Spent(s, c)
  {
    money := map[];
    var i := 0;
    while i < |s|
      invariant 0 <= i <= |s|
      invariant money.Keys == PaidCurrencies(s[..i])
      invariant forall c :: c in money ==> money[c] == Spent(s[..i], c)
    {
      var before := money;
      money := AddCost(money, s[i]);
      MoneyStep(s, i, before, money);
      i := i + 1;
    }
    assert s[..|s|] == s;
  }

  /** The statistics under the grid. */
  datatype Stats = Stats(totalVisits: nat, uniqueDays: nat, moneyByCurrency: map<string, int>)

  /** `monthlyStats`: the month's visit count, its number of distinct visit
      days, and its totals per currency. */
  method MonthlyStats(ts: seq<Treatment>, year: int, month: int, monthOf: string -> YearMonth)
    returns (stats: Stats)
    ensures var mt := MonthTreatments(ts, year, month, monthOf);
            stats.totalVisits == |mt|
            && stats.uniqueDays == |DayKeys(mt)|
            && stats.moneyByCurrency.Keys == PaidCurrencies(mt)
            && forall c :: c in stats.moneyByCurrency ==> stats.moneyByCurrency[c] == Spent(mt, c)
    ensures stats.uniqueDays <= stats.totalVisits
    ensures stats.uniqueDays == 0 <==> stats.totalVisits == 0
  {
    var monthTreatments := MonthTreatments(ts, year, month, monthOf);
    var money := MoneyByCurrency(monthTreatments);
    stats := Stats(|monthTreatments|, |DayKeys(monthTreatments)|, money);
  }

  /** The statistics panel is shown when there are visits or totals. */
  predicate StatsShown(stats: Stats)
  {
    stats.totalVisits > 0 || |stats.moneyByCurrency.Keys| > 0
  }

  /** The totals alone never show the panel: it is shown exactly when the
      month has visits. */
  lemma StatsShownIffVisits(ts: seq<Treatment>, year: int, month: int, monthOf: string -> YearMonth, stats: Stats)
    requires var mt := MonthTreatments(ts, year, month, monthOf);
             stats.totalVisits == |mt| && stats.moneyByCurrency.Keys == PaidCurrencies(mt)
    ensures StatsShown(stats) <==> stats.totalVisits > 0
  {
    var mt := MonthTreatments(ts, year, month, monthOf);
    if |stats.moneyByCurrency.Keys| > 0 {
      var c :| c in stats.moneyByCurrency.Keys;
      PaidCurrencyWitness(mt, c);
    }
  }

  /** The displayed month. Navigation steps to the first of the month before
      or after; "Today" returns to the current month. */
  class Calendar {
    var year: int
    var month: int

    ghost predicate Valid()
      reads this
    {
      IsMonth(month)
    }

    /** `useState(new Date())`: the month of today's date. */
    constructor(todayYear: int, todayMonth: int)
      requires IsMonth(todayMonth)
      ensures Valid() && year == todayYear && month == todayMonth
    {
      year, month := todayYear, todayMonth;
    }

    /** `goToPrevMonth`. */
    method GoToPrevMonth()
      requires Valid()
      modifies this
      ensures Valid()
      ensures YearMonth(year, month) == PrevMonth(old(year), old(month))
      ensures 12 * year + month == 12 * old(year) + old(month) - 1
    {
      if month == 0 {
        year, month := year - 1, 11;
      } else {
        month := month - 1;
      }
    }

    /** `goToNextMonth`. */
    method GoToNextMonth()
      requires Valid()
      modifies this
      ensures Valid()
      ensures YearMonth(year, month) == NextMonth(old(year), old(month))
      ensures 12 * year + month == 12 * old(year) + old(month) + 1
    {
      if month == 11 {
        year, month := year + 1, 0;
      } else {
        month := month + 1;
      }
    }

    /** `goToToday`: today's month, given by the clock as a parameter. */
    method GoToToday(todayYear: int, todayMonth: int)
      requires Valid() && IsMonth(todayMonth)
      modifies this
      ensures Valid() && year == todayYear && month == todayMonth
    {
      year, month := todayYear, todayMonth;
    }
  }
}
