/** internal/service/work_schedule.go: effective-dated schedule versions. Dates are day numbers counted
    from the first of January 1970, where the seeded schedule begins. */
module WorkSchedules {
  import opened Wrappers

  const WEEKDAYS := {"monday", "tuesday", "wednesday", "thursday", "friday", "saturday", "sunday"}
  const MINUTES_PER_DAY := 1440

  /** Local working minutes of a day, `end` exclusive. */
  datatype Window = Window(start: int, end: int)
  datatype Day = Day(weekday: string, minutes: int, windows: seq<Window>)
  datatype Template = Template(tz: string, weekStart: string, days: seq<Day>)

  /** In force from `from` up to, not including, `to`; open-ended without one. */
  datatype Version = Version(template: Template, from: int, to: Option<int>)

  /** What the code asks of the outside: trimming, folding case, known zones. */
  datatype Text = Text(trim: string -> string, lower: string -> string, zones: string -> bool)

  // ── validation ──────────────────────────────────────────────────────

  predicate ProperWindow(w: Window) {
    0 <= w.start < w.end <= MINUTES_PER_DAY
  }

  method ValidateWindows(windows: seq<Window>) returns (ok: bool)
    ensures ok <==> forall w :: w in windows ==> ProperWindow(w)
  {
    for n := 0 to |windows|
      invariant forall i :: 0 <= i < n ==> ProperWindow(windows[i])
    {
      var w := windows[n];
      if w.start < 0 || w.start >= MINUTES_PER_DAY || w.end <= 0 || w.end > MINUTES_PER_DAY || w.end <= w.start {
        assert w in windows;
        return false;
      }
    }
    return true;
  }

  predicate ProperDay(text: Text, d: Day) {
    text.lower(text.trim(d.weekday)) in WEEKDAYS && d.minutes >= 0 && forall w :: w in d.windows ==> ProperWindow(w)
  }

  predicate ProperDays(text: Text, days: seq<Day>) {
    && |days| == 7
    && (forall i :: 0 <= i < 7 ==> ProperDay(text, days[i]))
    && (forall i, j :: 0 <= i < j < 7 ==> text.lower(text.trim(days[i].weekday)) != text.lower(text.trim(days[j].weekday)))
  }

  method ValidateScheduleDays(text: Text, days: seq<Day>) returns (ok: bool)
    ensures ok <==> ProperDays(text, days)
  {
    if |days| != 7 {
      return false;
    }
    var seen: set<string> := {};
    for n := 0 to |days|
      invariant seen == set i | 0 <= i < n :: text.lower(text.trim(days[i].weekday))
      invariant forall i :: 0 <= i < n ==> ProperDay(text, days[i])
      invariant forall i, j :: 0 <= i < j < n ==> text.lower(text.trim(days[i].weekday)) != text.lower(text.trim(days[j].weekday))
    {
      var d := days[n];
      var wd := text.lower(text.trim(d.weekday));
      if wd !in WEEKDAYS {
        return false;
      }
      if wd in seen {
        return false;
      }
      seen := seen + {wd};
      if d.minutes < 0 {
        return false;
      }
      var proper := ValidateWindows(d.windows);
      if !proper {
        return false;
      }
    }
    return true;
  }

  function Names(days: seq<Day>): set<string> {
    set i | 0 <= i < |days| :: days[i].weekday
  }

  lemma {:induction false} DistinctNames(days: seq<Day>)
    requires forall i, j :: 0 <= i < j < |days| ==> days[i].weekday != days[j].weekday
    ensures |Names(days)| == |days|
  {
    if |days| > 0 {
      var init, last := days[..|days| - 1], days[|days| - 1];
      DistinctNames(init);
      assert last.weekday !in Names(init);
      assert Names(days) == Names(init) + {last.weekday};
    }
  }

  /** Seven distinct valid weekdays are all of them: an accepted template has exactly one row for every
      day of the week. */
  lemma EveryWeekdayOnce(days: seq<Day>, weekday: string)
    requires |days| == 7 && (forall i :: 0 <= i < 7 ==> days[i].weekday in WEEKDAYS)
    requires forall i, j :: 0 <= i < j < 7 ==> days[i].weekday != days[j].weekday
    requires weekday in WEEKDAYS
    ensures exists i :: 0 <= i < 7 && days[i].weekday == weekday && forall j :: 0 <= j < 7 && days[j].weekday == weekday ==> j == i
  {
    DistinctNames(days);
    if weekday !in Names(days) {
      assert Names(days) <= WEEKDAYS - {weekday};
      SubsetSize(Names(days), WEEKDAYS - {weekday});
    }
  }

  // ── versions ────────────────────────────────────────────────────────

  /** The rows the lookup for a date may return. */
  predicate Governs(v: Version, date: int) {
    v.from <= date && (v.to.None? || v.to.value > date)
  }

  /** The range is open or reaches past the new start. */
  predicate Reaches(v: Version, from: int) {
    v.to.None? || v.to.value > from
  }

  function Closed(versions: seq<Version>, from: int): seq<Version> {
    seq(|versions|, i requires 0 <= i < |versions| =>
      if Reaches(versions[i], from) then versions[i].(to := Some(from)) else versions[i])
  }

  /** Refused when a version that would have to be closed starts on or after the new start. */
  predicate Refused(versions: seq<Version>, from: int) {
    exists v :: v in versions && Reaches(v, from) && v.from >= from
  }

  class ScheduleTable {
    /** In listing order: effective date ascending. */
    var versions: seq<Version>

    constructor ()
      ensures versions == []
    {
      versions := [];
    }

    method Seed(template: Template)
      modifies this
      ensures versions == if old(versions) == [] then [Version(template, 0, None)] else old(versions)
    {
      if |versions| > 0 {
        return;
      }
      versions := [Version(template, 0, None)];
    }

    /** The lookup by date: the first row whose range holds it. */
    method GetWorkScheduleForDate(date: int) returns (v: Option<Version>)
      ensures v.Some? ==> v.value in versions && Governs(v.value, date)
      ensures v.None? ==> forall w :: w in versions ==> !Governs(w, date)
    {
      for n := 0 to |versions|
        invariant forall i :: 0 <= i < n ==> !Governs(versions[i], date)
      {
        if versions[n].from <= date && (versions[n].to.None? || versions[n].to.value > date) {
          return Some(versions[n]);
        }
      }
      return None;
    }

    /** Closes what reaches past the new start and appends the new version, in one transaction. The
        caller's day rows are normalized in place once they are valid. */
    method ReplaceActiveWorkSchedule(text: Text, tz: string, weekStart: string, from: Option<int>, days: array<Day>) returns (ok: bool)
      modifies this, days
      ensures ok <==> Acceptable(text, tz, weekStart, from, old(days[..])) && !Refused(old(versions), from.value)
      ensures !ok ==> versions == old(versions)
      ensures days[..] == if Acceptable(text, tz, weekStart, from, old(days[..])) then Normalized(text, old(days[..])) else old(days[..])
      ensures ok ==> versions == Closed(old(versions), from.value)
                                 + [Version(Template(text.trim(tz), text.lower(text.trim(weekStart)), days[..]), from.value, None)]
    {
      var zone := text.trim(tz);
      if zone == "" || !text.zones(zone) {
        return false;
      }
      var ww := text.lower(text.trim(weekStart));
      if ww !in WEEKDAYS {
        return false;
      }
      if from.None? {
        return false;
      }
      var proper := ValidateScheduleDays(text, days[..]);
      if !proper {
        return false;
      }
      NormalizeDays(text, days);
      ok := CloseReaching(from.value);
      if !ok {
        return;
      }
      versions := versions + [Version(Template(zone, ww, days[..]), from.value, None)];
    }

    method NormalizeDays(text: Text, days: array<Day>)
      modifies days
      ensures days[..] == Normalized(text, old(days[..]))
    {
      for i := 0 to days.Length
        invariant forall j :: 0 <= j < i ==> days[j] == NormalizedDay(text, old(days[j]))
        invariant forall j :: i <= j < days.Length ==> days[j] == old(days[j])
      {
        days[i] := days[i].(weekday := text.lower(text.trim(days[i].weekday)));
      }
    }

    method CloseReaching(from: int) returns (ok: bool)
      modifies this
      ensures ok <==> !Refused(old(versions), from)
      ensures versions == if ok then Closed(old(versions), from) else old(versions)
    {
      var saved := versions;
      for n := 0 to |saved|
        invariant |versions| == |saved|
        invariant forall i :: 0 <= i < n ==> versions[i] == Closed(saved, from)[i]
        invariant forall i :: n <= i < |saved| ==> versions[i] == saved[i]
        invariant forall i :: 0 <= i < n ==> !(Reaches(saved[i], from) && saved[i].from >= from)
      {
        var row := versions[n];
        if row.to.None? || row.to.value > from {
          if row.from >= from {
            versions := saved;
            assert saved[n] in saved;
            return false;
          }
          versions := versions[n := row.(to := Some(from))];
        }
      }
      return true;
    }
  }

  function NormalizedDay(text: Text, d: Day): Day {
    d.(weekday := text.lower(text.trim(d.weekday)))
  }

  function Normalized(text: Text, days: seq<Day>): seq<Day> {
    seq(|days|, i requires 0 <= i < |days| => NormalizedDay(text, days[i]))
  }

  /** What is stored of an accepted template: one row for every day of the week, each with the length and the windows
      that were given for it. */
  lemma StoredDays(text: Text, days: seq<Day>, weekday: string)
    requires ProperDays(text, days)
    ensures var stored := Normalized(text, days);
            && |stored| == 7 && (forall i :: 0 <= i < 7 ==> stored[i].minutes == days[i].minutes && stored[i].windows == days[i].windows)
            && (weekday in WEEKDAYS ==>
                  exists i :: 0 <= i < 7 && stored[i].weekday == weekday && forall j :: 0 <= j < 7 && stored[j].weekday == weekday ==> j == i)
  {
    var stored := Normalized(text, days);
    assert forall i :: 0 <= i < 7 ==> ProperDay(text, days[i]);
    if weekday in WEEKDAYS { EveryWeekdayOnce(stored, weekday); }
  }

  predicate Acceptable(text: Text, tz: string, weekStart: string, from: Option<int>, days: seq<Day>) {
    && text.trim(tz) != "" && text.zones(text.trim(tz))
    && text.lower(text.trim(weekStart)) in WEEKDAYS
    && from.Some? && ProperDays(text, days)
  }

  // ── runs ────────────────────────────────────────────────────────────

  /** The versions follow each other without a hole from the epoch on, and the last is open-ended. */
  predicate Chain(versions: seq<Version>) {
    && versions != [] && versions[0].from == 0
    && (forall i :: 0 <= i < |versions| - 1 ==> versions[i].to == Some(versions[i + 1].from))
    && (forall i, j :: 0 <= i < j < |versions| ==> versions[i].from < versions[j].from)
    && versions[|versions| - 1].to.None?
  }

  datatype Change = Change(template: Template, from: int)

  /** One replacement, as it changes the table: nothing when refused. */
  function Replace(versions: seq<Version>, c: Change): seq<Version> {
    if Refused(versions, c.from) then versions else Closed(versions, c.from) + [Version(c.template, c.from, None)]
  }

  function After(seed: Template, changes: seq<Change>): seq<Version> {
    if changes == [] then [Version(seed, 0, None)]
    else Replace(After(seed, changes[..|changes| - 1]), changes[|changes| - 1])
  }

  /** On a chain a change is refused exactly when it starts no later than the last version, and an
      accepted one closes the last version only. */
  lemma RefusedExactly(versions: seq<Version>, from: int)
    requires Chain(versions)
    ensures var last := versions[|versions| - 1];
            && (Refused(versions, from) <==> from <= last.from)
            && (from > last.from ==> Closed(versions, from) == versions[|versions| - 1 := last.(to := Some(from))])
  {
    var last := versions[|versions| - 1];
    if from <= last.from {
      assert last in versions && Reaches(last, from);
    } else {
      forall i | 0 <= i < |versions| - 1 ensures !Reaches(versions[i], from) {
        assert versions[i].to == Some(versions[i + 1].from);
        assert i + 1 < |versions| - 1 ==> versions[i + 1].from < last.from;
      }
    }
  }

  lemma ReplaceKeepsChain(versions: seq<Version>, c: Change)
    requires Chain(versions)
    ensures Chain(Replace(versions, c))
  {
    RefusedExactly(versions, c.from);
    var after := Replace(versions, c);
    if !Refused(versions, c.from) {
      assert |after| == |versions| + 1;
      forall i | 0 <= i < |after| - 1 ensures after[i].to == Some(after[i + 1].from) {
        if i < |versions| - 1 { assert versions[i].to == Some(versions[i + 1].from); }
      }
    }
  }

  lemma {:induction false} RunIsChain(seed: Template, changes: seq<Change>)
    ensures Chain(After(seed, changes))
  {
    if changes != [] {
      RunIsChain(seed, changes[..|changes| - 1]);
      ReplaceKeepsChain(After(seed, changes[..|changes| - 1]), changes[|changes| - 1]);
    }
  }

  /** The version in force on a date of the chain. */
  lemma {:induction false} ChainCovers(versions: seq<Version>, date: int) returns (k: nat)
    requires Chain(versions) && date >= 0
    ensures k < |versions| && Governs(versions[k], date)
    ensures forall i :: 0 <= i < |versions| && Governs(versions[i], date) ==> i == k
  {
    k := 0;
    while k < |versions| - 1 && versions[k + 1].from <= date
      invariant k < |versions| && versions[k].from <= date
      invariant forall i :: 0 <= i < k ==> !Governs(versions[i], date)
    {
      assert versions[k].to == Some(versions[k + 1].from);
      k := k + 1;
    }
    if k < |versions| - 1 {
      assert versions[k].to == Some(versions[k + 1].from);
      forall i | k < i < |versions| ensures !Governs(versions[i], date) {
        assert i == k + 1 || versions[k + 1].from < versions[i].from;
      }
    }
  }

  /** In every run from the seed each date from 1970 on is governed by exactly one version, so the lookup
      is unambiguous, and earlier dates by none. */
  lemma ExactlyOneGoverns(seed: Template, changes: seq<Change>, date: int)
    ensures var versions := After(seed, changes);
            if date < 0 then forall v :: v in versions ==> !Governs(v, date)
            else exists v :: v in versions && Governs(v, date) && forall w :: w in versions && Governs(w, date) ==> w == v
  {
    var versions := After(seed, changes);
    RunIsChain(seed, changes);
    if date < 0 {
      forall v | v in versions ensures !Governs(v, date) {
        var i :| 0 <= i < |versions| && versions[i] == v;
        assert i == 0 || versions[0].from < versions[i].from;
      }
    } else {
      var k := ChainCovers(versions, date);
      assert versions[k] in versions;
    }
  }

  /** The table's overlap check on two rows. */
  predicate Overlapping(a: Version, b: Version) {
    (b.to.None? || a.from < b.to.value) && (a.to.None? || b.from < a.to.value)
  }

  /** The overlap triggers of the table never fire: no run makes two versions overlap. */
  lemma RunNeverOverlaps(seed: Template, changes: seq<Change>, i: nat, j: nat)
    requires i < j < |After(seed, changes)|
    ensures !Overlapping(After(seed, changes)[i], After(seed, changes)[j])
  {
    var versions := After(seed, changes);
    RunIsChain(seed, changes);
    assert versions[i].to == Some(versions[i + 1].from);
    assert i + 1 == j || versions[i + 1].from < versions[j].from;
  }

  /** A change never alters what governs any date before it, governs every date from its start on, and
      when refused alters nothing. */
  lemma PastIsKept(seed: Template, changes: seq<Change>, c: Change, date: int)
    requires date >= 0
    ensures var (before, after) := (After(seed, changes), After(seed, changes + [c]));
            exists v, w :: v in before && w in after && Governs(v, date) && Governs(w, date)
              && (Refused(before, c.from) ==> w == v)
              && (!Refused(before, c.from) && date < c.from ==> w.template == v.template && w.from == v.from)
              && (!Refused(before, c.from) && date >= c.from ==> w == Version(c.template, c.from, None))
  {
    hide Governs, Refused, Closed, Chain;
    var (before, after) := (After(seed, changes), After(seed, changes + [c]));
    assert (changes + [c])[..|changes|] == changes;
    assert after == Replace(before, c);
    hide After;
    RunIsChain(seed, changes);
    ReplaceGoverns(before, c, date);
  }

  lemma ReplaceGoverns(before: seq<Version>, c: Change, date: int)
    requires date >= 0 && Chain(before)
    ensures var after := Replace(before, c);
            exists v, w :: v in before && w in after && Governs(v, date) && Governs(w, date)
              && (Refused(before, c.from) ==> w == v)
              && (!Refused(before, c.from) && date < c.from ==> w.template == v.template && w.from == v.from)
              && (!Refused(before, c.from) && date >= c.from ==> w == Version(c.template, c.from, None))
  {
    var after := Replace(before, c);
    var k := ChainCovers(before, date);
    RefusedExactly(before, c.from);
    hide Chain, Closed, Refused;
    var v := before[k];
    assert v in before;
    var w := if Refused(before, c.from) || date < c.from then after[k] else after[|before|];
    assert w in after && Governs(w, date);
  }
}
