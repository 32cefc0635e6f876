/** internal/service/gaps.go: per day, what occupies the working windows and which gaps remain. */
module Gaps {
  import opened Wrappers
  import opened Intervals
  import opened LedgerTypes
  import opened LedgerSpec
  import WorkSchedules

  const DEFAULT_START := 540

  type Window = WorkSchedules.Window

  /** What the schedule expects of a date. `at` maps a local minute of that date to its instant in the
      schedule's time zone, and is missing when the zone is. */
  datatype Expected = Expected(date: int, minutes: int, windows: seq<Window>, at: Option<int -> int>)

  datatype Day = Day(date: int, bounds: Option<Interval>, events: seq<Interval>, filled: seq<Interval>,
                     gaps: seq<Interval>, covered: int, gapTime: int)

  /** The windows to use: without any, one of the expected length from nine o'clock. */
  function LocalWindows(et: Expected): seq<Window> {
    if et.windows == [] then [WorkSchedules.Window(DEFAULT_START, DEFAULT_START + et.minutes)] else et.windows
  }

  /** The instant lies in a proper working window of a day with expected time. */
  ghost predicate Working(et: Expected, t: int) {
    et.minutes > 0 && et.at.Some?
    && InAnyWindow(LocalWindows(et), et.at.value, t)
  }

  /** A listed event occupies the instant: visible, not declined, and timed. */
  ghost predicate EventAt(st: State, t: int) {
    exists k :: k in st.events && OccupiesAs(st, st.events[k]) && Covers(EventSpan(st.events[k]), t)
  }

  predicate OccupiesAs(st: State, ev: Event) {
    ev.active && !Excluded(st, SlotOf(ev.facts)) && ev.status != Declined && Timed(ev.facts)
  }

  function EventSpan(ev: Event): Interval {
    if ev.facts.start.Some? && ev.facts.end.Some? then Interval(ev.facts.start.value, ev.facts.end.value) else Interval(0, 0)
  }

  /** A time entry covers the instant, whatever its attestation. */
  ghost predicate FillAt(st: State, t: int) {
    exists x :: x in st.entries && Covers(st.entries[x].span, t)
  }

  /** Time runs forward through every proper window, as it does in any zone except across the minutes a
      clock change skips or repeats. */
  ghost predicate Forward(et: Expected) {
    et.at.Some? ==> forall w :: w in LocalWindows(et) && w.start < w.end ==> et.at.value(w.start) < et.at.value(w.end)
  }

  lemma WindowPush(windows: seq<Window>, n: nat, at: int -> int)
    requires n < |windows|
    ensures forall t :: InAnyWindow(windows[..n + 1], at, t) <==> InAnyWindow(windows[..n], at, t) || InWindow(windows[n], at, t)
  {
    assert windows[..n + 1] == windows[..n] + [windows[n]];
    assert windows[n] in windows[..n + 1];
  }

  method RawWindows(windows: seq<Window>, at: int -> int) returns (raw: seq<Interval>)
    ensures forall t :: CoveredBy(raw, t) <==> InAnyWindow(windows, at, t)
    ensures (forall w :: w in windows && w.start < w.end ==> at(w.start) < at(w.end)) ==> AllNonEmpty(raw)
  {
    raw := [];
    for n := 0 to |windows|
      invariant forall t :: CoveredBy(raw, t) <==> InAnyWindow(windows[..n], at, t)
      invariant (forall w :: w in windows && w.start < w.end ==> at(w.start) < at(w.end)) ==> AllNonEmpty(raw)
    {
      var w := windows[n];
      WindowPush(windows, n, at);
      if w.end <= w.start {
        continue;
      }
      assert w in windows;
      var iv := Interval(at(w.start), at(w.end));
      CoveredByPush(raw, iv);
      assert forall t :: InWindow(w, at, t) <==> Covers(iv, t);
      raw := raw + [iv];
    }
    assert windows[..|windows|] == windows;
  }

  /** Sorted and merged spans, from a scratch copy that `Union` may reorder. */
  method Merged(raw: seq<Interval>) returns (out: seq<Interval>)
    ensures Separated(out) && (AllNonEmpty(raw) ==> AllNonEmpty(out))
    ensures forall t :: CoveredBy(out, t) <==> CoveredBy(raw, t)
  {
    var spans := new Interval[|raw|](i requires 0 <= i < |raw| => raw[i]);
    assert spans[..] == raw;
    hide Separated, AllNonEmpty, SortByStart;
    out := Union(spans);
  }

  lemma WorkingIs(et: Expected)
    requires et.minutes > 0 && et.at.Some?
    ensures forall t :: Working(et, t) <==> InAnyWindow(LocalWindows(et), et.at.value, t)
    ensures Forward(et) <==> forall w :: w in LocalWindows(et) && w.start < w.end ==> et.at.value(w.start) < et.at.value(w.end)
  {
  }

  method WorkingWindows(et: Expected) returns (res: Outcome<seq<Interval>>)
    ensures res.Failed? <==> et.minutes > 0 && et.at.None?
    ensures res.Done? ==> Separated(res.value) && forall t :: CoveredBy(res.value, t) <==> Working(et, t)
    ensures res.Done? && Forward(et) ==> AllNonEmpty(res.value)
  {
    if et.minutes <= 0 {
      return Done([]);
    }
    var windows := et.windows;
    if |windows| == 0 {
      windows := [WorkSchedules.Window(DEFAULT_START, DEFAULT_START + et.minutes)];
    }
    if et.at.None? {
      return Failed;
    }
    var out := MergedWindows(et, windows);
    return Done(out);
  }

  method MergedWindows(et: Expected, windows: seq<Window>) returns (out: seq<Interval>)
    requires et.minutes > 0 && et.at.Some? && windows == LocalWindows(et)
    ensures Separated(out) && (Forward(et) ==> AllNonEmpty(out))
    ensures forall t :: CoveredBy(out, t) <==> Working(et, t)
  {
    hide Separated, AllNonEmpty, Working, Forward, InAnyWindow, CoveredBy;
    WorkingIs(et);
    var raw := RawWindows(windows, et.at.value);
    out := Merged(raw);
  }

  ghost predicate InAnyWindow(windows: seq<Window>, at: int -> int, t: int) {
    exists w :: w in windows && InWindow(w, at, t)
  }

  predicate InWindow(w: Window, at: int -> int, t: int) {
    w.start < w.end && at(w.start) <= t < at(w.end)
  }

  method EventSpans(st: State, listed: seq<Event>) returns (spans: seq<Interval>)
    requires forall ev :: ev in listed <==> exists k :: k in st.events && st.events[k] == ev
    ensures forall t :: CoveredBy(spans, t) <==> EventAt(st, t)
  {
    spans := [];
    for n := 0 to |listed|
      invariant forall t :: CoveredBy(spans, t) <==> exists i :: 0 <= i < n && OccupiesAs(st, listed[i]) && Covers(EventSpan(listed[i]), t)
    {
      var ev := listed[n];
      if !ev.active || Excluded(st, SlotOf(ev.facts)) {
        continue;
      }
      if ev.facts.allDay || ev.status == Declined || ev.facts.start.None? || ev.facts.end.None? {
        continue;
      }
      CoveredByPush(spans, EventSpan(ev));
      spans := spans + [EventSpan(ev)];
    }
    forall t ensures CoveredBy(spans, t) <==> EventAt(st, t) {
      if EventAt(st, t) {
        var k :| k in st.events && OccupiesAs(st, st.events[k]) && Covers(EventSpan(st.events[k]), t);
        assert st.events[k] in listed;
        var i :| 0 <= i < |listed| && listed[i] == st.events[k];
        assert OccupiesAs(st, listed[i]) && Covers(EventSpan(listed[i]), t);
      }
      if CoveredBy(spans, t) {
        var i :| 0 <= i < |listed| && OccupiesAs(st, listed[i]) && Covers(EventSpan(listed[i]), t);
        assert listed[i] in listed;
      }
    }
  }

  method FillSpans(st: State, rows: seq<Row>) returns (spans: seq<Interval>)
    requires Lists(rows, st.entries)
    ensures forall t :: CoveredBy(spans, t) <==> FillAt(st, t)
  {
    spans := [];
    for n := 0 to |rows|
      invariant forall t :: CoveredBy(spans, t) <==> exists i :: 0 <= i < n && Covers(rows[i].te.span, t)
    {
      CoveredByPush(spans, rows[n].te.span);
      spans := spans + [rows[n].te.span];
    }
    forall t ensures CoveredBy(spans, t) <==> FillAt(st, t) {
      if FillAt(st, t) {
        var x :| x in st.entries && Covers(st.entries[x].span, t);
        var i :| 0 <= i < |rows| && rows[i] == Row(x, st.entries[x]);
        assert Covers(rows[i].te.span, t);
      }
      if CoveredBy(spans, t) {
        var i :| 0 <= i < |rows| && Covers(rows[i].te.span, t);
        assert rows[i] in rows;
      }
    }
  }

  /** The window runs from the first to the last working instant of the day, if there is any. */
  ghost predicate Bounded(et: Expected, bounds: Option<Interval>) {
    && (forall t :: Working(et, t) ==> bounds.Some? && Covers(bounds.value, t))
    && (bounds.Some? ==> Working(et, bounds.value.start) && Working(et, bounds.value.end - 1))
  }

  /** Gaps and occupied spans partition the working time of the day, and the two totals add up to it. */
  ghost predicate Partitioned(st: State, et: Expected, day: Day) {
    && day.date == et.date
    && (forall t :: CoveredBy(day.events, t) <==> Working(et, t) && EventAt(st, t))
    && (forall t :: CoveredBy(day.filled, t) <==> Working(et, t) && FillAt(st, t))
    && (forall t :: CoveredBy(day.gaps, t) <==> Working(et, t) && !EventAt(st, t) && !FillAt(st, t))
    && (Forward(et) ==> Bounded(et, day.bounds))
    && Disjoint(day.gaps) && day.gapTime == Measure(day.gaps)
    && (forall whole: seq<Interval> :: Disjoint(whole) && (forall t :: CoveredBy(whole, t) <==> Working(et, t))
          ==> day.covered + day.gapTime == Measure(whole))
  }

  method ClipToWindows(spans: seq<Interval>, working: seq<Interval>) returns (out: seq<Interval>)
    ensures AllNonEmpty(out)
    ensures forall t :: CoveredBy(out, t) <==> CoveredBy(working, t) && CoveredBy(spans, t)
  {
    out := [];
    for n := 0 to |working|
      invariant AllNonEmpty(out)
      invariant forall t :: CoveredBy(out, t) <==> CoveredBy(working[..n], t) && CoveredBy(spans, t)
    {
      assert working[..n + 1] == working[..n] + [working[n]];
      CoveredByPush(working[..n], working[n]);
      var clipped := ClipAll(spans, working[n]);
      forall t ensures CoveredBy(out + clipped, t) <==> CoveredBy(out, t) || CoveredBy(clipped, t) {
        CoveredByAppend(out, clipped, t);
      }
      out := out + clipped;
    }
    assert working[..|working|] == working;
  }

  /** Gaps collected so far end before every later window. */
  predicate EndBefore(gaps: seq<Interval>, working: seq<Interval>, n: nat) {
    forall i, j :: 0 <= i < |gaps| && n <= j < |working| ==> gaps[i].end <= working[j].start
  }

  method SubtractAll(working: seq<Interval>, occupied: seq<Interval>) returns (gaps: seq<Interval>)
    requires Separated(working) && SortedByStart(occupied) && AllNonEmpty(occupied)
    ensures Disjoint(gaps)
    ensures forall t :: CoveredBy(gaps, t) <==> CoveredBy(working, t) && !CoveredBy(occupied, t)
  {
    gaps := [];
    for n := 0 to |working|
      invariant Disjoint(gaps) && EndBefore(gaps, working, n)
      invariant forall t :: CoveredBy(gaps, t) <==> CoveredBy(working[..n], t) && !CoveredBy(occupied, t)
    {
      assert working[..n + 1] == working[..n] + [working[n]];
      CoveredByPush(working[..n], working[n]);
      var more := Subtract(working[n], occupied);
      forall t ensures CoveredBy(gaps + more, t) <==> CoveredBy(gaps, t) || CoveredBy(more, t) {
        CoveredByAppend(gaps, more, t);
      }
      gaps := gaps + more;
    }
    assert working[..|working|] == working;
  }

  method ComputeDay(st: State, et: Expected, working: seq<Interval>, eventSpans: seq<Interval>, fillSpans: seq<Interval>)
    returns (day: Day)
    requires Separated(working) && forall t :: CoveredBy(working, t) <==> Working(et, t)
    requires forall t :: CoveredBy(eventSpans, t) <==> EventAt(st, t)
    requires forall t :: CoveredBy(fillSpans, t) <==> FillAt(st, t)
    requires Forward(et) ==> AllNonEmpty(working)
    ensures Partitioned(st, et, day)
  {
    if |working| == 0 {
      NothingCovered(et, []);
      return Day(et.date, None, [], [], [], 0, 0);
    }
    var dayEvents := ClipToWindows(eventSpans, working);
    var dayFills := ClipToWindows(fillSpans, working);
    assert AllNonEmpty(dayEvents + dayFills);
    var occupied := Merged(dayEvents + dayFills);
    forall t ensures CoveredBy(occupied, t) <==> CoveredBy(dayEvents, t) || CoveredBy(dayFills, t) {
      CoveredByAppend(dayEvents, dayFills, t);
    }
    SeparatedSorted(occupied);
    var gaps := SubtractAll(working, occupied);
    day := Day(et.date, Some(Interval(working[0].start, working[|working| - 1].end)), dayEvents, dayFills, gaps,
               Measure(occupied), Measure(gaps));
    TotalsAdd(et, occupied, gaps);
    if Forward(et) {
      WindowBounds(et, working);
    }
  }

  lemma WindowBounds(et: Expected, working: seq<Interval>)
    requires |working| > 0 && Separated(working) && AllNonEmpty(working) && forall t :: CoveredBy(working, t) <==> Working(et, t)
    ensures Bounded(et, Some(Interval(working[0].start, working[|working| - 1].end)))
  {
    assert Covers(working[0], working[0].start) && Covers(working[|working| - 1], working[|working| - 1].end - 1);
    forall t | Working(et, t) ensures working[0].start <= t < working[|working| - 1].end {
      var i :| 0 <= i < |working| && Covers(working[i], t);
    }
  }

  lemma SeparatedSorted(ivs: seq<Interval>)
    requires Separated(ivs) && AllNonEmpty(ivs)
    ensures SortedByStart(ivs) && Disjoint(ivs)
  {
  }

  lemma TotalsAdd(et: Expected, occupied: seq<Interval>, gaps: seq<Interval>)
    requires Disjoint(occupied) && Disjoint(gaps)
    requires forall t :: CoveredBy(occupied, t) ==> Working(et, t)
    requires forall t :: CoveredBy(gaps, t) <==> Working(et, t) && !CoveredBy(occupied, t)
    ensures forall whole: seq<Interval> :: Disjoint(whole) && (forall t :: CoveredBy(whole, t) <==> Working(et, t))
              ==> Measure(occupied) + Measure(gaps) == Measure(whole)
  {
    forall whole: seq<Interval> | Disjoint(whole) && (forall t :: CoveredBy(whole, t) <==> Working(et, t))
      ensures Measure(occupied) + Measure(gaps) == Measure(whole)
    {
      MeasureSplits(whole, occupied, gaps);
    }
  }

  lemma NothingCovered(et: Expected, none: seq<Interval>)
    requires none == [] && forall t :: CoveredBy(none, t) <==> Working(et, t)
    ensures forall whole: seq<Interval> :: Disjoint(whole) && (forall t :: CoveredBy(whole, t) <==> Working(et, t)) ==> Measure(whole) == 0
  {
    TotalsAdd(et, none, none);
  }

  method ListedEvents(env: Env, st: State) returns (listed: seq<Event>)
    requires env.Valid()
    ensures forall ev :: ev in listed <==> exists k :: k in st.events && st.events[k] == ev
  {
    var keys := env.listKeys(st.events);
    assert ListsKeys(keys, st.events);
    listed := seq(|keys|, i requires 0 <= i < |keys| => st.events[keys[i]]);
    forall ev ensures ev in listed <==> exists k :: k in st.events && st.events[k] == ev {
      if k :| k in st.events && st.events[k] == ev {
        var i :| 0 <= i < |keys| && keys[i] == k;
        assert listed[i] == ev;
      }
    }
  }

  /** The timelines of a period, one per expected day. */
  method ComputeGaps(env: Env, st: State, expected: seq<Expected>) returns (res: Outcome<seq<Day>>)
    requires env.Valid()
    ensures res.Done? <==> env.hasTz && forall i :: 0 <= i < |expected| ==> expected[i].minutes <= 0 || expected[i].at.Some?
    ensures res.Done? ==> |res.value| == |expected| && forall i :: 0 <= i < |expected| ==> Partitioned(st, expected[i], res.value[i])
  {
    hide Partitioned, EventAt, FillAt, Working, Separated, AllNonEmpty, CoveredBy, Forward;
    if !env.hasTz {
      return Failed;
    }
    var listed := ListedEvents(env, st);
    var eventSpans := EventSpans(st, listed);
    var rows := env.listRows(st.entries);
    assert Lists(rows, st.entries);
    var fillSpans := FillSpans(st, rows);
    var out: seq<Day> := [];
    for n := 0 to |expected|
      invariant |out| == n
      invariant forall i :: 0 <= i < n ==> Partitioned(st, expected[i], out[i])
      invariant forall i :: 0 <= i < n ==> expected[i].minutes <= 0 || expected[i].at.Some?
    {
      var working := WorkingWindows(expected[n]);
      if working.Failed? {
        return Failed;
      }
      var day := ComputeDay(st, expected[n], working.value, eventSpans, fillSpans);
      out := out + [day];
    }
    return Done(out);
  }
}
