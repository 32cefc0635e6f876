/** internal/service/period.go: pay-period ranges on the calendar grid, and the creation of periods over
    every run. Dates are day numbers counted from the first of January of year zero in the proleptic
    Gregorian calendar. */
module Periods {
  import opened Wrappers

  // ── the civil calendar ──────────────────────────────────────────────

  predicate Leap(year: nat) {
    year % 4 == 0 && (year % 100 != 0 || year % 400 == 0)
  }

  type MonthIndex = i: int | 0 <= i < 12

  datatype Month = Month(year: nat, index: MonthIndex) {
    function Previous(): Month
      requires this != Month(0, 0)
    {
      if index == 0 then Month(year - 1, 11) else Month(year, index - 1)
    }

    function Following(): Month {
      if index == 11 then Month(year + 1, 0) else Month(year, index + 1)
    }

    predicate Precedes(other: Month) {
      year < other.year || (year == other.year && index < other.index)
    }
  }

  function DaysIn(m: Month): (days: nat)
    ensures 28 <= days <= 31
  {
    match m.index
    case 1 => if Leap(m.year) then 29 else 28
    case 3 => 30
    case 5 => 30
    case 8 => 30
    case 10 => 30
    case _ => 31
  }

  /** The day number of the first of a month. */
  function FirstOf(m: Month): nat
    decreases m.year, m.index
  {
    if m == Month(0, 0) then 0 else FirstOf(m.Previous()) + DaysIn(m.Previous())
  }

  lemma {:induction false} FirstsAscend(a: Month, b: Month)
    requires a.Precedes(b)
    ensures FirstOf(a) + DaysIn(a) <= FirstOf(b)
    decreases b.year, b.index
  {
    if a != b.Previous() { FirstsAscend(a, b.Previous()); }
  }

  /** Days before a year: one for each leap year so far beyond 365 a year. */
  function YearStart(year: nat): int {
    365 * year + (year + 3) / 4 - (year + 99) / 100 + (year + 399) / 400
  }

  /** Days before a month, if February had thirty. */
  function MonthStart(index: nat): int {
    (367 * index + 5) / 12
  }

  /** The calendar in closed form: the first of each month as the proleptic Gregorian calendar has it. */
  lemma {:induction false} CalendarIs(m: Month)
    ensures FirstOf(m) == YearStart(m.year) + MonthStart(m.index) - if m.index <= 1 then 0 else if Leap(m.year) then 1 else 2
    decreases m.year, m.index
  {
    hide YearStart, MonthStart, Leap;
    if m == Month(0, 0) {
      YearZero();
    } else {
      CalendarIs(m.Previous());
      MonthAfter(m.index);
      if m.index == 0 { LeapCounts(m.year - 1); }
    }
  }

  lemma YearZero()
    ensures YearStart(0) == 0 && MonthStart(0) == 0
  {
  }

  lemma MonthAfter(index: MonthIndex)
    ensures index == 0 ==> MonthStart(0) == 0 && MonthStart(11) == 336
    ensures index > 0 ==> MonthStart(index) == MonthStart(index - 1) + if index in {4, 6, 9, 11} then 30 else if index == 2 then 30 else 31
  {
    MonthTable();
    hide MonthStart;
  }

  lemma MonthTable()
    ensures MonthStart(0) == 0 && MonthStart(1) == 31 && MonthStart(2) == 61 && MonthStart(3) == 92 && MonthStart(4) == 122
            && MonthStart(5) == 153 && MonthStart(6) == 183 && MonthStart(7) == 214 && MonthStart(8) == 245 && MonthStart(9) == 275
            && MonthStart(10) == 306 && MonthStart(11) == 336
  {
  }

  lemma LeapCounts(year: nat)
    ensures YearStart(year + 1) == YearStart(year) + if Leap(year) then 366 else 365
  {
    OneMore(year, 4);
    OneMore(year, 100);
    OneMore(year, 400);
    Multiples(year);
  }

  lemma Multiples(year: nat)
    ensures (year % 400 == 0 ==> year % 100 == 0) && (year % 100 == 0 ==> year % 4 == 0)
  {
    if year % 400 == 0 {
      DivModIs(year, 400);
      MultipleMod(4 * (year / 400), 100);
    }
    if year % 100 == 0 {
      DivModIs(year, 100);
      MultipleMod(25 * (year / 100), 4);
    }
  }

  /** The number of multiples of `n` below a year grows exactly after a multiple. */
  lemma OneMore(year: nat, n: nat)
    requires n == 4 || n == 100 || n == 400
    ensures (year + 1 + (n - 1)) / n == (year + (n - 1)) / n + if year % n == 0 then 1 else 0
  {
  }

  /** The month a day lies in, searched from `from`. */
  function MonthFrom(day: nat, from: Month): (m: Month)
    requires FirstOf(from) <= day
    ensures FirstOf(m) <= day < FirstOf(m) + DaysIn(m)
    decreases day - FirstOf(from)
  {
    if day < FirstOf(from) + DaysIn(from) then from
    else
      assert from.Following().Previous() == from;
      MonthFrom(day, from.Following())
  }

  function MonthOf(day: nat): (m: Month)
    ensures FirstOf(m) <= day < FirstOf(m) + DaysIn(m)
  {
    MonthFrom(day, Month(0, 0))
  }

  /** The month of a day is the only one that holds it. */
  lemma MonthUnique(day: nat, m: Month)
    requires FirstOf(m) <= day < FirstOf(m) + DaysIn(m)
    ensures MonthOf(day) == m
  {
    if MonthOf(day).Precedes(m) { FirstsAscend(MonthOf(day), m); }
    if m.Precedes(MonthOf(day)) { FirstsAscend(m, MonthOf(day)); }
  }

  function DayOfMonth(day: nat): (d: nat)
    ensures 1 <= d <= DaysIn(MonthOf(day))
  {
    day - FirstOf(MonthOf(day)) + 1
  }

  // ── ranges ──────────────────────────────────────────────────────────

  datatype Cadence = Weekly | BiWeekly | SemiMonthly | Monthly | UnknownCadence(name: string)

  /** Inclusive dates. */
  datatype Range = Range(start: int, end: int)

  predicate Contains(r: Range, day: int) {
    r.start <= day <= r.end
  }

  /** The remainder as the source computes it: truncated toward zero, then shifted when negative. */
  function TruncatedRemainder(a: int, b: int): int
    requires b > 0
  {
    if a >= 0 then a % b else -(-a % b)
  }

  /** Whole days in the longest representable duration, 2^63 - 1 nanoseconds. */
  const MAX_DAYS := 106751

  /** The days between two dates as the source counts them: a time difference saturates. */
  function Elapsed(today: int, anchor: int): int {
    if today - anchor > MAX_DAYS then MAX_DAYS
    else if today - anchor < -MAX_DAYS then -MAX_DAYS
    else today - anchor
  }

  function FixedDayRange(today: int, anchor: int, length: int): Range
    requires length > 0
  {
    var offset := TruncatedRemainder(Elapsed(today, anchor), length);
    var shifted := if offset < 0 then offset + length else offset;
    var start := today - shifted;
    Range(start, start + length - 1)
  }

  function CurrentRange(today: nat, anchor: int, cadence: Cadence): Range {
    match cadence
    case Weekly => FixedDayRange(today, anchor, 7)
    case BiWeekly => FixedDayRange(today, anchor, 14)
    case SemiMonthly =>
      var first := FirstOf(MonthOf(today));
      if DayOfMonth(today) <= 15 then Range(first, first + 14) else Range(first + 15, first + DaysIn(MonthOf(today)) - 1)
    case Monthly =>
      var first := FirstOf(MonthOf(today));
      Range(first, first + DaysIn(MonthOf(today)) - 1)
    case UnknownCadence(_) => FixedDayRange(today, anchor, 14)
  }

  /** Truncation plus the shift is the true modulus: until the day difference saturates, the start lies
      on the grid through the anchor. Beyond, it trails or leads today by a fixed number of days. */
  lemma FixedDayGrid(today: int, anchor: int, length: int)
    requires length == 7 || length == 14
    ensures var r := FixedDayRange(today, anchor, length);
            && Contains(r, today) && r.end == r.start + length - 1
            && (-MAX_DAYS <= today - anchor <= MAX_DAYS ==> (r.start - anchor) % length == 0)
            && (today - anchor > MAX_DAYS ==> r.start == today - 1)
            && (today - anchor < -MAX_DAYS ==> r.end == today)
  {
    if -MAX_DAYS <= today - anchor <= MAX_DAYS { ShiftedRemainder(today - anchor, length); }
  }

  lemma ShiftedRemainder(a: int, length: int)
    requires length > 0
    ensures var offset := TruncatedRemainder(a, length);
            var shifted := if offset < 0 then offset + length else offset;
            0 <= shifted < length && (a - shifted) % length == 0
  {
    var offset := TruncatedRemainder(a, length);
    var shifted := if offset < 0 then offset + length else offset;
    if a >= 0 {
      DivModIs(a, length);
      MultipleMod(a / length, length);
      assert a - shifted == (a / length) * length;
    } else {
      DivModIs(-a, length);
      if offset < 0 {
        MultipleMod(-(-a / length) - 1, length);
        assert a - shifted == (-(-a / length) - 1) * length;
      } else {
        MultipleMod(-(-a / length), length);
        assert a - shifted == -(-a / length) * length;
      }
    }
  }

  lemma DivModIs(a: int, b: int)
    requires b > 0
    ensures a == (a / b) * b + a % b
  {
  }

  lemma MultipleMod(q: int, b: int)
    requires b > 0
    ensures (q * b) % b == 0
  {
    ModUnique(q * b, b, q, 0);
  }

  lemma SmallMultiple(k: int, b: int)
    requires b > 0 && -b < k * b < b
    ensures k == 0
  {
    assert (-k) * b == -(k * b);
    if k >= 1 { AtLeastOnce(k, b); }
    if k <= -1 { AtLeastOnce(-k, b); }
  }

  lemma {:induction false} AtLeastOnce(k: nat, b: int)
    requires k >= 1 && b > 0
    ensures k * b >= b
  {
    if k > 1 {
      AtLeastOnce(k - 1, b);
      assert k * b == (k - 1) * b + b;
    }
  }

  lemma Distribute(p: int, q: int, b: int)
    ensures (p - q) * b == p * b - q * b
  {
  }

  lemma ModUnique(a: int, b: int, q: int, r: int)
    requires b > 0 && a == q * b + r && 0 <= r < b
    ensures a % b == r
  {
    DivModIs(a, b);
    Distribute(q, a / b, b);
    SmallMultiple(q - a / b, b);
  }

  /** Two points of one grid less than a step apart are equal. */
  lemma SameGridPoint(a: int, b: int, anchor: int, length: int)
    requires length > 0 && (a - anchor) % length == 0 && (b - anchor) % length == 0
    requires -length < a - b < length
    ensures a == b
  {
    DivModIs(a - anchor, length);
    DivModIs(b - anchor, length);
    var (p, q) := ((a - anchor) / length, (b - anchor) / length);
    Distribute(p, q, length);
    SmallMultiple(p - q, length);
  }

  /** Whole periods of either length fit into the longest duration exactly this often: it is the last
      grid point before the day difference saturates. */
  const LAST_START := 106750

  /** The dates whose periods lie wholly where the day difference is exact. */
  predicate Exact(today: int, anchor: int) {
    -LAST_START <= today - anchor < LAST_START
  }

  lemma FixedDayStable(today: int, anchor: int, length: int, day: int)
    requires (length == 7 || length == 14) && Exact(today, anchor)
    requires Contains(FixedDayRange(today, anchor, length), day)
    ensures FixedDayRange(day, anchor, length) == FixedDayRange(today, anchor, length) && Exact(day, anchor)
  {
    FixedDayGrid(today, anchor, length);
    FixedDayGrid(day, anchor, length);
    ExactRange(today, anchor, length);
    SameGridPoint(FixedDayRange(day, anchor, length).start, FixedDayRange(today, anchor, length).start, anchor, length);
  }

  /** The range of such a date stays between the last grid points. */
  lemma ExactRange(today: int, anchor: int, length: int)
    requires (length == 7 || length == 14) && Exact(today, anchor)
    ensures var r := FixedDayRange(today, anchor, length); anchor - LAST_START <= r.start && r.end < anchor + LAST_START
  {
    FixedDayGrid(today, anchor, length);
    var r := FixedDayRange(today, anchor, length);
    assert LAST_START % length == 0 && (-LAST_START) % length == 0;
    if r.end >= anchor + LAST_START { SameGridPoint(r.start, anchor + LAST_START, anchor, length); }
    if r.start < anchor - LAST_START { SameGridPoint(r.start, anchor - LAST_START, anchor, length); }
  }

  /** Every date of a fixed-length range maps back to it exactly when its date lies between the last
      grid points; past them already a neighbouring date has another range. */
  lemma FixedDayPartitions(today: int, anchor: int, length: int)
    requires length == 7 || length == 14
    ensures (forall day: int :: Contains(FixedDayRange(today, anchor, length), day)
                                ==> FixedDayRange(day, anchor, length) == FixedDayRange(today, anchor, length))
       <==> Exact(today, anchor)
  {
    FixedDayGrid(today, anchor, length);
    if Exact(today, anchor) {
      forall day: int | Contains(FixedDayRange(today, anchor, length), day)
        ensures FixedDayRange(day, anchor, length) == FixedDayRange(today, anchor, length)
      {
        FixedDayStable(today, anchor, length, day);
      }
    } else {
      LastRanges(today, anchor, length);
      var day := if today - anchor == LAST_START then today + 2 else if today > anchor then today + 1 else today - 1;
      FixedDayGrid(day, anchor, length);
      assert Contains(FixedDayRange(today, anchor, length), day);
    }
  }

  /** The dates past the last grid points where the day difference is still exact. */
  lemma LastRanges(today: int, anchor: int, length: int)
    requires length == 7 || length == 14
    ensures var r := FixedDayRange(today, anchor, length);
            && (LAST_START <= today - anchor <= MAX_DAYS ==> r.start == anchor + LAST_START)
            && (today - anchor == -MAX_DAYS ==> r.end == today)
  {
  }

  lemma MonthStable(today: nat, day: nat)
    requires FirstOf(MonthOf(today)) <= day < FirstOf(MonthOf(today)) + DaysIn(MonthOf(today))
    ensures MonthOf(day) == MonthOf(today)
  {
    MonthUnique(day, MonthOf(today));
  }

  predicate ByCalendar(cadence: Cadence) {
    cadence.SemiMonthly? || cadence.Monthly?
  }

  /** For every cadence the range contains today. Each of its dates maps back to it, for the cadences that
      follow the calendar always and for the others between the last grid points: there the ranges of one
      cadence and anchor partition the calendar. */
  lemma RangePartitions(today: nat, anchor: int, cadence: Cadence, day: nat)
    ensures Contains(CurrentRange(today, anchor, cadence), today)
    ensures Contains(CurrentRange(today, anchor, cadence), day) && (ByCalendar(cadence) || Exact(today, anchor))
            ==> CurrentRange(day, anchor, cadence) == CurrentRange(today, anchor, cadence)
  {
    FixedDayGrid(today, anchor, 7);
    FixedDayGrid(today, anchor, 14);
    var r := CurrentRange(today, anchor, cadence);
    if Contains(r, day) && (ByCalendar(cadence) || Exact(today, anchor)) {
      match cadence
      case Weekly => FixedDayStable(today, anchor, 7, day);
      case SemiMonthly => MonthStable(today, day);
      case Monthly => MonthStable(today, day);
      case _ => FixedDayStable(today, anchor, 14, day);
    }
  }

  /** The shape of a range of its cadence. */
  ghost predicate Shaped(r: Range, cadence: Cadence) {
    && 0 <= r.start <= r.end
    && match cadence
       case Monthly => DayOfMonth(r.start) == 1 && EndsMonth(r)
       case SemiMonthly =>
         || (DayOfMonth(r.start) == 1 && DayOfMonth(r.end) == 15 && MonthOf(r.end) == MonthOf(r.start))
         || (DayOfMonth(r.start) == 16 && EndsMonth(r))
       case Weekly => r.end - r.start + 1 == 7
       case _ => r.end - r.start + 1 == 14
  }

  /** The range ends on the last day of the month it starts in. */
  predicate EndsMonth(r: Range)
    requires 0 <= r.start <= r.end
  {
    MonthOf(r.end) == MonthOf(r.start) && DayOfMonth(r.end) == DaysIn(MonthOf(r.end))
  }

  lemma DayIs(day: nat, m: Month, n: nat)
    requires 1 <= n <= DaysIn(m) && day == FirstOf(m) + n - 1
    ensures MonthOf(day) == m && DayOfMonth(day) == n
  {
    MonthUnique(day, m);
  }

  /** A monthly period runs from the first to the last day of a month; a semi-monthly one from the first to
      the fifteenth or from the sixteenth to the last; a weekly one has seven days, any other fourteen. */
  lemma RangeShape(today: nat, anchor: int, cadence: Cadence)
    ensures var r := CurrentRange(today, anchor, cadence);
            r.start >= 0 ==> Shaped(r, cadence)
    ensures ByCalendar(cadence) ==> CurrentRange(today, anchor, cadence).start >= 0
  {
    hide DaysIn, FirstOf, MonthOf;
    var m := MonthOf(today);
    DayIs(FirstOf(m), m, 1);
    DayIs(FirstOf(m) + 14, m, 15);
    DayIs(FirstOf(m) + 15, m, 16);
    DayIs(FirstOf(m) + DaysIn(m) - 1, m, DaysIn(m));
  }

  // ── the period table ────────────────────────────────────────────────

  datatype Period = Period(range: Range, cadence: Cadence, anchor: Option<int>)
  datatype Segment = Segment(from: int, tz: string)

  /** The table's check constraint. */
  predicate KnownCadence(c: Cadence) {
    !c.UnknownCadence?
  }

  function CadenceOf(periods: seq<Period>, setting: Option<Cadence>): Cadence {
    if periods != [] then periods[0].cadence
    else if setting.Some? then setting.value else BiWeekly
  }

  function AnchorOf(periods: seq<Period>, today: int): int {
    if periods == [] || periods[0].anchor.None? then today else periods[0].anchor.value
  }

  /** Insertion in listing order, latest start first. */
  function InsertPeriod(periods: seq<Period>, p: Period): seq<Period> {
    if periods == [] then [p]
    else if periods[0].range.start <= p.range.start then [p] + periods
    else [periods[0]] + InsertPeriod(periods[1..], p)
  }

  lemma {:induction false} InsertedExactly(periods: seq<Period>, p: Period)
    ensures forall q :: q in InsertPeriod(periods, p) <==> q in periods || q == p
    ensures InsertPeriod(periods, p) != []
  {
    if periods != [] && periods[0].range.start > p.range.start {
      InsertedExactly(periods[1..], p);
      assert periods == [periods[0]] + periods[1..];
    }
  }

  predicate AnyContains(periods: seq<Period>, day: int) {
    exists p :: p in periods && Contains(p.range, day)
  }

  /** All periods are current ranges of one cadence and one anchor. */
  ghost predicate OnGrid(periods: seq<Period>) {
    periods != [] ==> exists anchor, cadence :: GridOf(periods, anchor, cadence)
  }

  ghost predicate GridOf(periods: seq<Period>, anchor: int, cadence: Cadence) {
    KnownCadence(cadence) && forall p :: p in periods ==> OnGridOf(p, anchor, cadence)
  }

  ghost predicate OnGridOf(p: Period, anchor: int, cadence: Cadence) {
    p.cadence == cadence && p.anchor == Some(anchor) && exists day: nat :: p.range == CurrentRange(day, anchor, cadence)
  }

  class PeriodTable {
    /** In listing order: start date descending. */
    var periods: seq<Period>
    var segments: map<Range, seq<Segment>>

    constructor ()
      ensures periods == [] && segments == map[]
    {
      periods, segments := [], map[];
    }

    method EnsureSegment(range: Range, tz: string)
      modifies this`segments
      ensures range in segments && segments[range] != []
      ensures segments == if range in old(segments) && old(segments)[range] != [] then old(segments)
                          else old(segments)[range := [Segment(range.start, tz)]]
    {
      if range in segments && |segments[range]| > 0 {
        return;
      }
      segments := segments[range := [Segment(range.start, tz)]];
    }

    method FindByRange(range: Range) returns (found: Option<Period>)
      ensures found.Some? ==> found.value in periods && found.value.range == range
      ensures found.None? ==> forall p :: p in periods ==> p.range != range
    {
      for n := 0 to |periods|
        invariant forall i :: 0 <= i < n ==> periods[i].range != range
      {
        if periods[n].range == range {
          return Some(periods[n]);
        }
      }
      return None;
    }

    /** The period containing today: the listed one, or a new one on the grid of those before it. */
    method EnsureCurrentPeriod(today: Option<nat>, tz: string, setting: Option<Cadence>) returns (res: Outcome<Period>)
      modifies this
      ensures today.None? ==> res.Failed?
      ensures res.Failed? ==> periods == old(periods) && segments == old(segments)
      ensures today.Some? && AnyContains(old(periods), today.value) ==>
                res.Done? && res.value in old(periods) && Contains(res.value.range, today.value) && periods == old(periods)
      ensures today.Some? && !AnyContains(old(periods), today.value) ==>
                EnsureNew(old(periods), today.value, setting) == if res.Done? then Done((periods, res.value)) else Failed
      ensures res.Done? ==> res.value.range in segments && segments[res.value.range] != []
    {
      var zone := if tz == "" then "UTC" else tz;
      if today.None? {
        return Failed;
      }
      for n := 0 to |periods|
        invariant forall i :: 0 <= i < n ==> !Contains(periods[i].range, today.value)
      {
        if Contains(periods[n].range, today.value) {
          EnsureSegment(periods[n].range, zone);
          return Done(periods[n]);
        }
      }
      var cadence := CadenceOf(periods, setting);
      var anchor := AnchorOf(periods, today.value);
      var range := CurrentRange(today.value, anchor, cadence);
      var found := FindByRange(range);
      if found.Some? {
        // Never reached: a row with this range would contain today and have been found above.
        RangePartitions(today.value, anchor, cadence, today.value);
        assert false;
      }
      if !KnownCadence(cadence) {
        return Failed;
      }
      var period := Period(range, cadence, Some(anchor));
      periods := InsertPeriod(periods, period);
      EnsureSegment(range, zone);
      return Done(period);
    }
  }

  /** The creation of a period when none contains today. */
  function EnsureNew(periods: seq<Period>, today: nat, setting: Option<Cadence>): Outcome<(seq<Period>, Period)> {
    var (cadence, anchor) := (CadenceOf(periods, setting), AnchorOf(periods, today));
    var p := Period(CurrentRange(today, anchor, cadence), cadence, Some(anchor));
    if KnownCadence(cadence) then Done((InsertPeriod(periods, p), p)) else Failed
  }

  /** One call, as it changes the table. */
  function Ensure(periods: seq<Period>, today: Option<nat>, setting: Option<Cadence>): seq<Period> {
    if today.None? || AnyContains(periods, today.value) then periods
    else
      var r := EnsureNew(periods, today.value, setting);
      if r.Done? then r.value.0 else periods
  }

  // ── runs ────────────────────────────────────────────────────────────

  datatype Call = Call(today: Option<nat>, setting: Option<Cadence>)

  function After(calls: seq<Call>): seq<Period> {
    if calls == [] then []
    else Ensure(After(calls[..|calls| - 1]), calls[|calls| - 1].today, calls[|calls| - 1].setting)
  }

  lemma EnsureOnGrid(periods: seq<Period>, today: Option<nat>, setting: Option<Cadence>)
    requires OnGrid(periods)
    ensures OnGrid(Ensure(periods, today, setting))
  {
    var after := Ensure(periods, today, setting);
    if today.Some? && !AnyContains(periods, today.value) && EnsureNew(periods, today.value, setting).Done? {
      var p := EnsureNew(periods, today.value, setting).value.1;
      InsertedExactly(periods, p);
      if periods == [] {
        assert OnGridOf(p, today.value, p.cadence);
        assert GridOf(after, today.value, p.cadence);
      } else {
        var anchor, cadence :| GridOf(periods, anchor, cadence);
        assert OnGridOf(periods[0], anchor, cadence);
        assert p.range == CurrentRange(today.value, anchor, cadence);
        assert OnGridOf(p, anchor, cadence);
        assert GridOf(after, anchor, cadence);
      }
    }
  }

  lemma {:induction false} RunOnGrid(calls: seq<Call>)
    ensures OnGrid(After(calls))
  {
    if calls != [] {
      RunOnGrid(calls[..|calls| - 1]);
      EnsureOnGrid(After(calls[..|calls| - 1]), calls[|calls| - 1].today, calls[|calls| - 1].setting);
    }
  }

  /** The dates no two periods of one cadence and anchor can share. */
  predicate Covered(day: int, anchor: int, cadence: Cadence) {
    ByCalendar(cadence) || -MAX_DAYS <= day - anchor <= LAST_START
  }

  /** Two ranges of one cadence and anchor that share such a date are the same range. */
  lemma GridDisjoint(a: Period, b: Period, anchor: int, cadence: Cadence, day: int)
    requires OnGridOf(a, anchor, cadence) && OnGridOf(b, anchor, cadence) && Covered(day, anchor, cadence)
    requires Contains(a.range, day) && Contains(b.range, day)
    ensures a == b
  {
    var x: nat :| a.range == CurrentRange(x, anchor, cadence);
    var y: nat :| b.range == CurrentRange(y, anchor, cadence);
    if ByCalendar(cadence) {
      var shared: nat := day;
      RangePartitions(x, anchor, cadence, shared);
      RangePartitions(y, anchor, cadence, shared);
    } else {
      var length := if cadence.Weekly? then 7 else 14;
      SharedRange(x, anchor, length, day);
      SharedRange(y, anchor, length, day);
    }
  }

  /** The one range that can hold a covered date. */
  lemma SharedRange(today: int, anchor: int, length: int, day: int)
    requires (length == 7 || length == 14) && -MAX_DAYS <= day - anchor <= LAST_START
    requires Contains(FixedDayRange(today, anchor, length), day)
    ensures FixedDayRange(today, anchor, length) == FixedDayRange(day, anchor, length)
  {
    FixedDayGrid(today, anchor, length);
    LastRanges(today, anchor, length);
    LastRanges(day, anchor, length);
    if Exact(today, anchor) {
      FixedDayStable(today, anchor, length, day);
    } else if today - anchor == -MAX_DAYS {
      FixedDayGrid(day, anchor, length);
      assert day == today;
    }
  }

  /** In every run from the empty table all periods share cadence and anchor, and no two of them share a
      date, short of the dates where the day difference to the anchor saturates. */
  lemma RunPeriodsDisjoint(calls: seq<Call>, a: Period, b: Period, day: int)
    requires a in After(calls) && b in After(calls)
    ensures a.cadence == b.cadence && a.anchor == b.anchor && a.anchor.Some?
    ensures Contains(a.range, day) && Contains(b.range, day) && Covered(day, a.anchor.value, a.cadence) ==> a == b
  {
    RunOnGrid(calls);
    var anchor, cadence :| GridOf(After(calls), anchor, cadence);
    if Contains(a.range, day) && Contains(b.range, day) && Covered(day, anchor, cadence) {
      GridDisjoint(a, b, anchor, cadence, day);
    }
  }

  /** Every period of every run has the shape of its cadence, unless it begins before the first of January of
      year zero. */
  lemma RunPeriodsShaped(calls: seq<Call>, p: Period)
    requires p in After(calls) && p.range.start >= 0
    ensures Shaped(p.range, p.cadence)
  {
    hide CurrentRange;
    RunOnGrid(calls);
    var anchor, cadence :| GridOf(After(calls), anchor, cadence);
    assert OnGridOf(p, anchor, cadence);
    var day: nat :| p.range == CurrentRange(day, anchor, cadence);
    RangeShape(day, anchor, cadence);
  }

  /** Some run creates two periods of this anchor and cadence that share the date. */
  ghost predicate SharedInSomeRun(day: int, anchor: int, cadence: Cadence) {
    exists calls: seq<Call> :: SharedInRun(calls, day, anchor, cadence)
  }

  ghost predicate SharedInRun(calls: seq<Call>, day: int, anchor: int, cadence: Cadence) {
    exists a: Period, b: Period :: SharedIn(calls, a, b, day, anchor, cadence)
  }

  ghost predicate SharedIn(calls: seq<Call>, a: Period, b: Period, day: int, anchor: int, cadence: Cadence) {
    && a in After(calls) && b in After(calls) && a != b && a.anchor == Some(anchor) && a.cadence == cadence
    && Contains(a.range, day) && Contains(b.range, day)
  }

  /** Exactly the dates past that point are shared by two periods of some run. */
  lemma SharedExactly(day: nat, anchor: nat, cadence: Cadence)
    requires KnownCadence(cadence)
    ensures SharedInSomeRun(day, anchor, cadence) <==> !Covered(day, anchor, cadence)
  {
    if SharedInSomeRun(day, anchor, cadence) {
      var calls :| SharedInRun(calls, day, anchor, cadence);
      var a, b :| SharedIn(calls, a, b, day, anchor, cadence);
      RunPeriodsDisjoint(calls, a, b, day);
    }
    if !Covered(day, anchor, cadence) {
      var first: nat := if day > anchor then day + 1 else day;
      var second: nat := if day > anchor then day - 1 else day + 1;
      FarRun(anchor, cadence, first, second, day);
    }
  }

  function PeriodFor(today: nat, anchor: int, cadence: Cadence): Period {
    Period(CurrentRange(today, anchor, cadence), cadence, Some(anchor))
  }

  function FarCalls(anchor: nat, cadence: Cadence, first: nat, second: nat): seq<Call> {
    [Call(Some(anchor), Some(cadence)), Call(Some(first), None), Call(Some(second), None)]
  }

  /** Periods created one after the other from the empty table for dates none of them contains. */
  lemma FarRun(anchor: nat, cadence: Cadence, first: nat, second: nat, day: int)
    requires KnownCadence(cadence)
    requires !Contains(CurrentRange(anchor, anchor, cadence), first) && !Contains(CurrentRange(anchor, anchor, cadence), second)
    requires !Contains(CurrentRange(first, anchor, cadence), second)
    requires Contains(CurrentRange(first, anchor, cadence), day) && Contains(CurrentRange(second, anchor, cadence), day)
    ensures SharedInRun(FarCalls(anchor, cadence, first, second), day, anchor, cadence)
  {
    hide CurrentRange, Contains, After;
    var c0, c1, c2 := Call(Some(anchor), Some(cadence)), Call(Some(first), None), Call(Some(second), None);
    var p0, p1, p2 := PeriodFor(anchor, anchor, cadence), PeriodFor(first, anchor, cadence), PeriodFor(second, anchor, cadence);
    FirstCreated(anchor, cadence);
    CreatedNext([c0], p0, first, p1);
    assert [c0] + [c1] == [c0, c1] && [c0, c1] + [c2] == [c0, c1, c2];
    CreatedNext([c0, c1], p0, second, p2);
    RangePartitions(second, anchor, cadence, second);
    assert SharedIn(FarCalls(anchor, cadence, first, second), p1, p2, day, anchor, cadence);
  }

  lemma FirstCreated(today: nat, cadence: Cadence)
    requires KnownCadence(cadence)
    ensures After([Call(Some(today), Some(cadence))]) == [PeriodFor(today, today, cadence)]
  {
    assert [Call(Some(today), Some(cadence))][..0] == [];
  }

  /** One more creation in a run whose periods all have the cadence and anchor of `sample`. */
  lemma CreatedNext(calls: seq<Call>, sample: Period, today: nat, p: Period)
    requires sample in After(calls) && sample.anchor.Some? && !AnyContains(After(calls), today)
    requires p == PeriodFor(today, sample.anchor.value, sample.cadence)
    ensures forall q :: q in After(calls + [Call(Some(today), None)]) <==> q in After(calls) || q == p
  {
    var next := calls + [Call(Some(today), None)];
    assert next[..|next| - 1] == calls;
    RunOnGrid(calls);
    var anchor, cadence :| GridOf(After(calls), anchor, cadence);
    assert OnGridOf(sample, anchor, cadence) && OnGridOf(After(calls)[0], anchor, cadence);
    InsertedExactly(After(calls), p);
  }

  /** Overlapping periods: bi-weekly calls for some date, 136600 days later and 13 days after that, such as
      2026-01-01, 2400-01-01 and 2400-01-14, create two periods that hold the day before the last. */
  lemma FarPeriodsOverlap(anchor: nat)
    ensures SharedInRun(FarCalls(anchor, BiWeekly, anchor + 136600, anchor + 136613), anchor + 136612, anchor, BiWeekly)
  {
    FixedDayGrid(anchor + 136600, anchor, 14);
    FixedDayGrid(anchor + 136613, anchor, 14);
    FixedDayGrid(anchor, anchor, 14);
    FarRun(anchor, BiWeekly, anchor + 136600, anchor + 136613, anchor + 136612);
  }

  /** A call with a date in any existing period changes nothing, so neither does a repeated call, nor
      one for another date of the same period. */
  lemma EnsureIsIdempotent(periods: seq<Period>, today: nat, setting: Option<Cadence>, day: nat, later: Option<Cadence>)
    requires EnsureNew(periods, today, setting).Done? && !AnyContains(periods, today)
    requires Contains(EnsureNew(periods, today, setting).value.1.range, day)
    ensures AnyContains(Ensure(periods, Some(today), setting), today)
    ensures Ensure(Ensure(periods, Some(today), setting), Some(day), later) == Ensure(periods, Some(today), setting)
  {
    var p := EnsureNew(periods, today, setting).value.1;
    InsertedExactly(periods, p);
    RangePartitions(today, AnchorOf(periods, today), CadenceOf(periods, setting), today);
    assert p in Ensure(periods, Some(today), setting);
  }

  /** The call can fail only for a date that does not parse, or on an empty table with a cadence setting
      the table does not accept. */
  lemma RunFailsOnlyOnBadSetting(calls: seq<Call>, today: nat, setting: Option<Cadence>)
    requires !AnyContains(After(calls), today)
    ensures EnsureNew(After(calls), today, setting).Failed? <==> After(calls) == [] && setting.Some? && setting.value.UnknownCadence?
  {
    RunOnGrid(calls);
    if After(calls) != [] {
      var anchor, cadence :| GridOf(After(calls), anchor, cadence);
      assert OnGridOf(After(calls)[0], anchor, cadence);
    }
  }
}
