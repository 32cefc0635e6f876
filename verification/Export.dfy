/** internal/service/export.go: the rollup of confirmed time entries into period and daily totals. */
module Export {
  import opened Wrappers
  import opened Intervals
  import opened LedgerTypes

  const MIN_BLOCK := 15
  const DAY_END := 1440
  const UNASSIGNED := "Unassigned"

  datatype Category = Category(name: string, key: string, color: string)

  datatype Project = Project(name: string, key: string)

  datatype Entry = Entry(sourceId: nat, day: int, start: int, end: int, minutes: int, title: string, description: string,
                         category: Category, workType: WorkType, project: Project, billable: Billable)

  /** The category and project tables. */
  datatype Names = Names(categories: map<int, Category>, projects: map<int, Project>)

  datatype CategoryMinutes = CategoryMinutes(category: Category, minutes: int)
  datatype DayTotals = DayTotals(date: int, categories: seq<CategoryMinutes>, actual: int, target: int)

  datatype Model = Model(target: int, actual: int, days: seq<int>, entries: seq<Entry>, daily: seq<DayTotals>,
                         totals: seq<CategoryMinutes>)

  /** Local date and minute of the day of an instant, in the zone of the period that governs a work date. */
  datatype Clock = Clock(date: (int, int) -> int, minute: (int, int) -> int)

  function CategoryFor(id: Option<int>, categories: map<int, Category>): Category {
    if id.Some? && id.value in categories then categories[id.value] else Category(UNASSIGNED, UNASSIGNED, "")
  }

  function CategoryIdentity(c: Category): string {
    if c.key != "" then c.key else c.name
  }

  function ProjectFor(id: Option<int>, projects: map<int, Project>): Project {
    if id.Some? && id.value in projects then projects[id.value] else Project("", "")
  }

  /** Minutes run from the local start to the local end, to midnight when the end is on another date, and
      never less than one block. */
  function ToEntry(r: Row, clock: Clock, names: Names): (e: Entry)
    ensures e.minutes == e.end - e.start && e.minutes >= MIN_BLOCK && e.day == r.te.day
  {
    var (s, t) := (r.te.span.start, r.te.span.end);
    var start := clock.minute(r.te.day, s);
    var end0 := if clock.date(r.te.day, t) != clock.date(r.te.day, s) then DAY_END else clock.minute(r.te.day, t);
    var end := if start + MIN_BLOCK > end0 then start + MIN_BLOCK else end0;
    var category := CategoryFor(r.te.category, names.categories);
    Entry(r.id, r.te.day, start, end, end - start, if r.te.description == "" then category.name else r.te.description,
          r.te.description, category, r.te.allocation.workType, ProjectFor(r.te.allocation.project, names.projects),
          r.te.allocation.billable)
  }

  function ConfirmedEntries(rows: seq<Row>, clock: Clock, names: Names): seq<Entry> {
    if rows == [] then []
    else
      ConfirmedEntries(rows[..|rows| - 1], clock, names)
      + if rows[|rows| - 1].te.attestation == Confirmed then [ToEntry(rows[|rows| - 1], clock, names)] else []
  }

  /** What an entry says of its row, field by field: it starts at the local minute of the row's start and ends
      at that of its end, or at midnight when that is on another date, at least one block later. */
  lemma EntryFields(r: Row, clock: Clock, names: Names)
    ensures var (e, te) := (ToEntry(r, clock, names), r.te);
            && e.sourceId == r.id && e.day == te.day && e.description == te.description
            && e.start == clock.minute(te.day, te.span.start)
            && e.minutes == e.end - e.start
            && (clock.date(te.day, te.span.end) == clock.date(te.day, te.span.start) ==>
                  e.end == if clock.minute(te.day, te.span.end) - e.start >= 15 then clock.minute(te.day, te.span.end) else e.start + 15)
            && (clock.date(te.day, te.span.end) != clock.date(te.day, te.span.start) ==>
                  e.end == if 1440 - e.start >= 15 then 1440 else e.start + 15)
            && (te.category.Some? && te.category.value in names.categories ==> e.category == names.categories[te.category.value])
            && (te.category.None? || te.category.value !in names.categories ==> CategoryIdentity(e.category) == UNASSIGNED)
            && (te.description != "" ==> e.title == te.description) && (te.description == "" ==> e.title == e.category.name)
            && e.workType == te.allocation.workType && e.billable == te.allocation.billable
            && (te.allocation.project.Some? && te.allocation.project.value in names.projects ==>
                  e.project == names.projects[te.allocation.project.value])
            && (te.allocation.project.None? || te.allocation.project.value !in names.projects ==> e.project == Project("", ""))
  {
  }

  // ── what the minutes of an entry are ────────────────────────────────

  /** The minutes a row counts for: from its start to its end or to midnight, at least one block. */
  function Counted(te: TimeEntry, clock: Clock): int {
    var start := clock.minute(te.day, te.span.start);
    var whole := if clock.date(te.day, te.span.end) == clock.date(te.day, te.span.start) then clock.minute(te.day, te.span.end) - start
                 else 1440 - start;
    if whole >= 15 then whole else 15
  }

  predicate RowMatches(te: TimeEntry, names: Names, category: Option<string>, day: Option<int>) {
    (category.Some? ==> CategoryIdentity(CategoryFor(te.category, names.categories)) == category.value)
    && (day.Some? ==> te.day == day.value)
  }

  /** The same sums taken over the rows of the ledger: the confirmed ones that match. */
  function RowTally(rows: seq<Row>, clock: Clock, names: Names, category: Option<string>, day: Option<int>): int {
    if rows == [] then 0
    else
      var te := rows[|rows| - 1].te;
      RowTally(rows[..|rows| - 1], clock, names, category, day)
      + if te.attestation == Confirmed && RowMatches(te, names, category, day) then Counted(te, clock) else 0
  }

  /** Every total of an export, for all entries, for a category, for a day or for both, is the sum of what the
      confirmed rows count for. */
  lemma {:induction false} TotalsAreOfRows(rows: seq<Row>, clock: Clock, names: Names, category: Option<string>, day: Option<int>)
    ensures Tally(ConfirmedEntries(rows, clock, names), category, day) == RowTally(rows, clock, names, category, day)
  {
    if rows != [] {
      var init, last := rows[..|rows| - 1], rows[|rows| - 1];
      TotalsAreOfRows(init, clock, names, category, day);
      EntryFields(last, clock, names);
      if last.te.attestation == Confirmed {
        TallyPush(ConfirmedEntries(init, clock, names), ToEntry(last, clock, names), category, day);
      } else {
        assert ConfirmedEntries(rows, clock, names) == ConfirmedEntries(init, clock, names);
      }
    }
  }

  /** A clock that follows local time: the minute of the day counts from the midnight `base` of the date. */
  ghost predicate Ticks(clock: Clock, base: (int, int) -> int) {
    forall d, t {:trigger clock.minute(d, t)} :: clock.minute(d, t) == (t - base(d, clock.date(d, t))) / 60
  }

  /** Whole minutes, on one local date, one block or more, and short enough to be counted. */
  predicate Plain(te: TimeEntry, clock: Clock) {
    && te.span.start <= te.span.end && (te.span.end - te.span.start) % 60 == 0
    && clock.date(te.day, te.span.end) == clock.date(te.day, te.span.start)
    && 15 <= (te.span.end - te.span.start) / 60 <= MAX_MINUTES
  }

  /** Such a row counts for the minutes of its span. */
  lemma PlainCounts(te: TimeEntry, clock: Clock, base: (int, int) -> int)
    requires Ticks(clock, base) && Plain(te, clock)
    ensures Counted(te, clock) == Minutes(te.span)
  {
    var b := base(te.day, clock.date(te.day, te.span.start));
    assert clock.minute(te.day, te.span.start) == (te.span.start - b) / 60 && clock.minute(te.day, te.span.end) == (te.span.end - b) / 60;
    WholeApart(te.span.start - b, te.span.end - b);
  }

  lemma WholeApart(a: int, b: int)
    requires (b - a) % 60 == 0
    ensures b / 60 - a / 60 == (b - a) / 60
  {
  }

  function MinutesOf(rows: seq<Row>): int {
    if rows == [] then 0
    else MinutesOf(rows[..|rows| - 1]) + if rows[|rows| - 1].te.attestation == Confirmed then rows[|rows| - 1].te.minutes else 0
  }

  /** When the confirmed rows are such rows, and their minutes are those of their spans, the actual total is
      the sum of the minutes of the confirmed rows. */
  lemma {:induction false} ActualIsRowMinutes(rows: seq<Row>, clock: Clock, names: Names, base: (int, int) -> int)
    requires Ticks(clock, base)
    requires forall r :: r in rows && r.te.attestation == Confirmed ==> Plain(r.te, clock) && r.te.minutes == Minutes(r.te.span)
    ensures Tally(ConfirmedEntries(rows, clock, names), None, None) == MinutesOf(rows)
  {
    TotalsAreOfRows(rows, clock, names, None, None);
    RowsCount(rows, clock, names, base);
  }

  lemma {:induction false} RowsCount(rows: seq<Row>, clock: Clock, names: Names, base: (int, int) -> int)
    requires Ticks(clock, base)
    requires forall r :: r in rows && r.te.attestation == Confirmed ==> Plain(r.te, clock) && r.te.minutes == Minutes(r.te.span)
    ensures RowTally(rows, clock, names, None, None) == MinutesOf(rows)
  {
    if rows != [] {
      var init, last := rows[..|rows| - 1], rows[|rows| - 1];
      assert rows == init + [last];
      RowsCount(init, clock, names, base);
      if last.te.attestation == Confirmed { PlainCounts(last.te, clock, base); }
    }
  }

  // ── sums ────────────────────────────────────────────────────────────

  predicate Matches(e: Entry, category: Option<string>, day: Option<int>) {
    (category.Some? ==> CategoryIdentity(e.category) == category.value) && (day.Some? ==> e.day == day.value)
  }

  /** Minutes of the entries of a category, of a day, of both, or of neither in particular. */
  function Tally(entries: seq<Entry>, category: Option<string>, day: Option<int>): int {
    if entries == [] then 0
    else
      Tally(entries[..|entries| - 1], category, day)
      + if Matches(entries[|entries| - 1], category, day) then entries[|entries| - 1].minutes else 0
  }

  /** Minutes of the entries whose day is not among the given ones. */
  function Outside(entries: seq<Entry>, category: Option<string>, days: seq<int>): int {
    if entries == [] then 0
    else
      var e := entries[|entries| - 1];
      Outside(entries[..|entries| - 1], category, days) + if Matches(e, category, None) && e.day !in days then e.minutes else 0
  }

  function OverDays(entries: seq<Entry>, category: Option<string>, days: seq<int>): int {
    if days == [] then 0
    else OverDays(entries, category, days[..|days| - 1]) + Tally(entries, category, Some(days[|days| - 1]))
  }

  lemma TallyPush(entries: seq<Entry>, e: Entry, category: Option<string>, day: Option<int>)
    ensures Tally(entries + [e], category, day) == Tally(entries, category, day) + if Matches(e, category, day) then e.minutes else 0
  {
    assert (entries + [e])[..|entries|] == entries;
  }

  lemma {:induction false} OutsideNone(entries: seq<Entry>, category: Option<string>)
    ensures Outside(entries, category, []) == Tally(entries, category, None)
  {
    if entries != [] { OutsideNone(entries[..|entries| - 1], category); }
  }

  lemma {:induction false} OutsideLess(entries: seq<Entry>, category: Option<string>, days: seq<int>, d: int)
    requires d !in days
    ensures Outside(entries, category, days) == Outside(entries, category, days + [d]) + Tally(entries, category, Some(d))
  {
    if entries != [] { OutsideLess(entries[..|entries| - 1], category, days, d); }
  }

  /** Day by day the entries of distinct days add up to all entries, less exactly those outside. */
  lemma {:induction false} DaysConserve(entries: seq<Entry>, category: Option<string>, days: seq<int>)
    requires forall i, j :: 0 <= i < j < |days| ==> days[i] != days[j]
    ensures OverDays(entries, category, days) + Outside(entries, category, days) == Tally(entries, category, None)
  {
    if days == [] {
      OutsideNone(entries, category);
    } else {
      var init, d := days[..|days| - 1], days[|days| - 1];
      DaysConserve(entries, category, init);
      OutsideLess(entries, category, init, d);
      assert days == init + [d];
    }
  }

  // ── totals per category ─────────────────────────────────────────────

  /** The category of the first entry of an identity, of a day or of all. */
  function FirstCategory(entries: seq<Entry>, k: string, day: Option<int>): Option<Category> {
    if entries == [] then None
    else
      var earlier := FirstCategory(entries[..|entries| - 1], k, day);
      if earlier.Some? then earlier
      else if Matches(entries[|entries| - 1], Some(k), day) then Some(entries[|entries| - 1].category) else None
  }

  /** The `i`-th entry is the first of its identity. */
  ghost predicate FirstAt(entries: seq<Entry>, k: string, day: Option<int>, i: nat) {
    i < |entries| && Matches(entries[i], Some(k), day) && forall j :: 0 <= j < i ==> !Matches(entries[j], Some(k), day)
  }

  lemma {:induction false} FirstCategoryIs(entries: seq<Entry>, k: string, day: Option<int>)
    ensures var c := FirstCategory(entries, k, day);
            && (c.None? <==> forall i :: 0 <= i < |entries| ==> !Matches(entries[i], Some(k), day))
            && (c.Some? ==> exists i: nat :: FirstAt(entries, k, day, i) && entries[i].category == c.value)
  {
    hide Matches;
    if entries != [] {
      var init, last := entries[..|entries| - 1], entries[|entries| - 1];
      assert entries == init + [last];
      FirstCategoryIs(init, k, day);
      if FirstCategory(init, k, day).Some? {
        var i: nat :| FirstAt(init, k, day, i) && init[i].category == FirstCategory(init, k, day).value;
        FirstStays(init, last, k, day, i);
      } else if Matches(last, Some(k), day) {
        FirstAtEnd(init, last, k, day);
      }
    }
  }

  lemma FirstStays(init: seq<Entry>, last: Entry, k: string, day: Option<int>, i: nat)
    requires FirstAt(init, k, day, i)
    ensures FirstAt(init + [last], k, day, i)
  {
    hide Matches;
  }

  lemma FirstAtEnd(init: seq<Entry>, last: Entry, k: string, day: Option<int>)
    requires Matches(last, Some(k), day) && forall i :: 0 <= i < |init| ==> !Matches(init[i], Some(k), day)
    ensures FirstAt(init + [last], k, day, |init|)
  {
    hide Matches;
  }

  lemma FirstCategoryPush(entries: seq<Entry>, e: Entry, k: string, day: Option<int>)
    ensures FirstCategory(entries + [e], k, day) == if FirstCategory(entries, k, day).Some? then FirstCategory(entries, k, day)
                                                   else if Matches(e, Some(k), day) then Some(e.category) else None
  {
    assert (entries + [e])[..|entries|] == entries;
  }

  /** Totals of the entries of a day, or of all: one for each category identity among them, held under it and shown
      as its first entry has it. */
  ghost predicate TotalsOf(m: map<string, CategoryMinutes>, entries: seq<Entry>, day: Option<int>) {
    && (forall k :: k in m <==> FirstCategory(entries, k, day).Some?)
    && (forall k :: k in m ==> m[k] == CategoryMinutes(FirstCategory(entries, k, day).value, Tally(entries, Some(k), day)))
    && (forall k :: k in m ==> CategoryIdentity(m[k].category) == k)
    && (forall k :: k !in m ==> Tally(entries, Some(k), day) == 0)
  }

  function Add(m: map<string, CategoryMinutes>, c: Category, minutes: int): map<string, CategoryMinutes> {
    var k := CategoryIdentity(c);
    m[k := if k in m then m[k].(minutes := m[k].minutes + minutes) else CategoryMinutes(c, minutes)]
  }

  lemma AddTotals(m: map<string, CategoryMinutes>, entries: seq<Entry>, e: Entry, day: Option<int>)
    requires TotalsOf(m, entries, day)
    ensures TotalsOf(if day.Some? && e.day != day.value then m else Add(m, e.category, e.minutes), entries + [e], day)
  {
    hide Tally, FirstCategory, CategoryIdentity;
    forall k ensures Tally(entries + [e], Some(k), day) == Tally(entries, Some(k), day) + if Matches(e, Some(k), day) then e.minutes else 0 {
      TallyPush(entries, e, Some(k), day);
    }
    forall k ensures FirstCategory(entries + [e], k, day) == if FirstCategory(entries, k, day).Some? then FirstCategory(entries, k, day)
                                                             else if Matches(e, Some(k), day) then Some(e.category) else None
    {
      FirstCategoryPush(entries, e, k, day);
    }
  }

  ghost function MapSum(m: map<string, CategoryMinutes>): int
    decreases |m|
  {
    if m == map[] then 0
    else
      var k :| k in m;
      m[k].minutes + MapSum(m - {k})
  }

  /** The sum does not depend on the order in which the keys are taken. */
  lemma {:induction false} MapSumTake(m: map<string, CategoryMinutes>, k: string)
    requires k in m
    ensures MapSum(m) == m[k].minutes + MapSum(m - {k})
    decreases |m|
  {
    var first :| first in m && MapSum(m) == m[first].minutes + MapSum(m - {first});
    if first != k {
      MapSumTake(m - {first}, k);
      MapSumTake(m - {k}, first);
      assert m - {first} - {k} == m - {k} - {first};
    }
  }

  lemma AddSum(m: map<string, CategoryMinutes>, c: Category, minutes: int)
    ensures MapSum(Add(m, c, minutes)) == MapSum(m) + minutes
  {
    var (k, m') := (CategoryIdentity(c), Add(m, c, minutes));
    MapSumTake(m', k);
    assert m' - {k} == m - {k};
    if k in m { MapSumTake(m, k); } else { assert m - {k} == m; }
  }

  function ListSum(list: seq<CategoryMinutes>): int {
    if list == [] then 0 else ListSum(list[..|list| - 1]) + list[|list| - 1].minutes
  }

  // ── sorting by category name ────────────────────────────────────────

  predicate NameBelow(a: string, b: string) {
    if b == "" then false
    else if a == "" then true
    else a[0] < b[0] || (a[0] == b[0] && NameBelow(a[1..], b[1..]))
  }

  lemma {:induction false} NamesTotal(a: string, b: string)
    ensures NameBelow(a, b) || NameBelow(b, a) || a == b
    ensures !(NameBelow(a, b) && NameBelow(b, a))
  {
    if a != "" && b != "" {
      NamesTotal(a[1..], b[1..]);
      assert a == [a[0]] + a[1..] && b == [b[0]] + b[1..];
    }
  }

  lemma {:induction false} NamesTransitive(a: string, b: string, c: string)
    requires !NameBelow(b, a) && !NameBelow(c, b)
    ensures !NameBelow(c, a)
  {
    if a != "" && b != "" && c != "" && a[0] == b[0] && b[0] == c[0] {
      NamesTransitive(a[1..], b[1..], c[1..]);
    }
  }

  predicate ByName(list: seq<CategoryMinutes>) {
    forall i, j :: 0 <= i < j < |list| ==> !NameBelow(list[j].category.name, list[i].category.name)
  }

  /** No two lines are for the same category identity. */
  predicate OneEach(list: seq<CategoryMinutes>) {
    forall i, j :: 0 <= i < j < |list| ==> CategoryIdentity(list[i].category) != CategoryIdentity(list[j].category)
  }

  lemma {:induction false} InsertedOnce(list: seq<CategoryMinutes>, c: CategoryMinutes)
    requires OneEach(list) && forall x :: x in list ==> CategoryIdentity(x.category) != CategoryIdentity(c.category)
    ensures OneEach(InsertByName(list, c))
  {
    hide CategoryIdentity, NameBelow;
    if list != [] && NameBelow(c.category.name, list[|list| - 1].category.name) {
      var init, last := list[..|list| - 1], list[|list| - 1];
      assert list == init + [last] && last in list;
      InsertedOnce(init, c);
      InsertedByName(init, c);
      OnceAppended(InsertByName(init, c), init, last, c);
    }
  }

  lemma OnceAppended(r: seq<CategoryMinutes>, init: seq<CategoryMinutes>, last: CategoryMinutes, c: CategoryMinutes)
    requires OneEach(r) && OneEach(init + [last]) && CategoryIdentity(last.category) != CategoryIdentity(c.category)
    requires forall x :: x in r <==> x in init || x == c
    ensures OneEach(r + [last])
  {
    hide CategoryIdentity;
    forall i | 0 <= i < |r| ensures CategoryIdentity(r[i].category) != CategoryIdentity(last.category) {
      assert r[i] in r;
      if r[i] in init {
        var j :| 0 <= j < |init| && init[j] == r[i];
        assert (init + [last])[j] == r[i] && (init + [last])[|init|] == last;
      }
    }
  }

  /** Exactly the totals of a map, one per identity. */
  ghost predicate ListsTotals(list: seq<CategoryMinutes>, m: map<string, CategoryMinutes>) {
    && |list| == |m| && ListSum(list) == MapSum(m)
    && OneEach(list)
    && (forall i :: 0 <= i < |list| ==> CategoryIdentity(list[i].category) in m && list[i] == m[CategoryIdentity(list[i].category)])
    && (forall k :: k in m ==> m[k] in list)
  }

  function InsertByName(list: seq<CategoryMinutes>, c: CategoryMinutes): (r: seq<CategoryMinutes>)
    ensures |r| == |list| + 1 && ListSum(r) == ListSum(list) + c.minutes
  {
    if list == [] || !NameBelow(c.category.name, list[|list| - 1].category.name) then
      assert (list + [c])[..|list|] == list;
      list + [c]
    else
      var init, last := list[..|list| - 1], list[|list| - 1];
      var r := InsertByName(init, c);
      assert (r + [last])[..|r|] == r;
      r + [last]
  }

  lemma {:induction false} InsertedByName(list: seq<CategoryMinutes>, c: CategoryMinutes)
    ensures forall x :: x in InsertByName(list, c) <==> x in list || x == c
    ensures ByName(list) ==> ByName(InsertByName(list, c))
  {
    if list != [] {
      var init, last := list[..|list| - 1], list[|list| - 1];
      assert list == init + [last];
      if NameBelow(c.category.name, last.category.name) {
        InsertedByName(init, c);
        NamesTotal(c.category.name, last.category.name);
        var r := InsertByName(init, c);
        if ByName(list) {
          forall i | 0 <= i < |r| ensures !NameBelow(last.category.name, r[i].category.name) {
            assert r[i] in r;
            if r[i] in init {
              var j :| 0 <= j < |init| && init[j] == r[i];
              assert list[j] == r[i];
            }
          }
        }
      } else if ByName(list) {
        forall i | 0 <= i < |list| ensures !NameBelow(c.category.name, list[i].category.name) {
          NamesTotal(last.category.name, last.category.name);
          NamesTransitive(list[i].category.name, last.category.name, c.category.name);
        }
      }
    }
  }

  method SortedCategoryMinutes(src: map<string, CategoryMinutes>) returns (out: seq<CategoryMinutes>)
    requires forall k :: k in src ==> CategoryIdentity(src[k].category) == k
    ensures ByName(out) && ListsTotals(out, src)
  {
    hide ByName, OneEach, Listing, InsertByName, MapSum, ListSum;
    out := [];
    var rest := src;
    ListingStart(src);
    while rest != map[]
      invariant Listing(out, src, rest)
      decreases |rest|
    {
      var k :| k in rest;
      ListingStep(out, src, rest, k);
      out := InsertByName(out, rest[k]);
      rest := rest - {k};
    }
    ListingEnd(out, src);
  }

  /** The lines taken so far and the totals left. */
  ghost predicate Listing(out: seq<CategoryMinutes>, src: map<string, CategoryMinutes>, rest: map<string, CategoryMinutes>) {
    && rest.Keys <= src.Keys && (forall k :: k in rest ==> rest[k] == src[k])
    && ByName(out) && OneEach(out)
    && |out| + |rest| == |src| && ListSum(out) + MapSum(rest) == MapSum(src)
    && (forall x :: x in out ==> Taken(x, src, rest))
    && (forall k :: k in src && k !in rest ==> src[k] in out)
  }

  lemma ListingStart(src: map<string, CategoryMinutes>)
    ensures Listing([], src, src)
  {
  }

  lemma ListingEnd(out: seq<CategoryMinutes>, src: map<string, CategoryMinutes>)
    requires Listing(out, src, map[])
    ensures ByName(out) && ListsTotals(out, src)
  {
    hide ByName, OneEach, ListSum, CategoryIdentity;
    forall i | 0 <= i < |out| ensures CategoryIdentity(out[i].category) in src && out[i] == src[CategoryIdentity(out[i].category)] {
      assert out[i] in out;
    }
  }

  lemma ListingStep(out: seq<CategoryMinutes>, src: map<string, CategoryMinutes>, rest: map<string, CategoryMinutes>, k: string)
    requires Listing(out, src, rest) && k in rest && forall k :: k in src ==> CategoryIdentity(src[k].category) == k
    ensures Listing(InsertByName(out, rest[k]), src, rest - {k})
  {
    hide ByName, OneEach, InsertByName, MapSum, ListSum, CategoryIdentity;
    MapSumTake(rest, k);
    InsertedByName(out, rest[k]);
    forall x | x in out ensures CategoryIdentity(x.category) != CategoryIdentity(rest[k].category) { assert Taken(x, src, rest); }
    InsertedOnce(out, rest[k]);
    forall x | x in InsertByName(out, rest[k]) ensures Taken(x, src, rest - {k}) {
      if x in out { assert Taken(x, src, rest); }
    }
  }

  predicate Taken(x: CategoryMinutes, src: map<string, CategoryMinutes>, rest: map<string, CategoryMinutes>) {
    CategoryIdentity(x.category) in src && CategoryIdentity(x.category) !in rest && x == src[CategoryIdentity(x.category)]
  }

  // ── the model ───────────────────────────────────────────────────────

  function DateRange(start: int, end: int): seq<int> {
    if end < start then [] else seq(end - start + 1, i requires 0 <= i < end - start + 1 => start + i)
  }

  /** What the rollup promises of its totals, for every category and day at once. */
  ghost predicate RolledUp(model: Model, entries: seq<Entry>, days: seq<int>) {
    && model.entries == entries && model.days == days && |model.daily| == |days|
    && model.actual == Tally(entries, None, None) == ListSum(model.totals)
    && ByName(model.totals) && Represents(model.totals, entries, None)
    && forall i :: 0 <= i < |days| ==> DayRolledUp(model.daily[i], entries, days[i])
  }

  ghost predicate DayRolledUp(d: DayTotals, entries: seq<Entry>, day: int) {
    && d.date == day && d.actual == Tally(entries, None, Some(day)) == ListSum(d.categories)
    && ByName(d.categories) && Represents(d.categories, entries, Some(day))
  }

  /** The minutes a list holds for an identity, as the matrix looks them up. */
  function MinutesFor(list: seq<CategoryMinutes>, k: string): int {
    if list == [] then 0
    else if CategoryIdentity(list[|list| - 1].category) == k then list[|list| - 1].minutes
    else MinutesFor(list[..|list| - 1], k)
  }

  /** The list has one line for each category identity of the entries: the category as its first entry has it, and
      exactly the minutes of its entries. */
  ghost predicate Represents(list: seq<CategoryMinutes>, entries: seq<Entry>, day: Option<int>) {
    && (forall k :: MinutesFor(list, k) == Tally(entries, Some(k), day))
    && (forall i :: 0 <= i < |list| ==> FirstCategory(entries, CategoryIdentity(list[i].category), day) == Some(list[i].category))
    && (forall k :: FirstCategory(entries, k, day).Some? ==> Holds(list, k))
    && OneEach(list)
  }

  ghost predicate Holds(list: seq<CategoryMinutes>, k: string) {
    exists i :: 0 <= i < |list| && CategoryIdentity(list[i].category) == k
  }

  lemma {:induction false} MinutesForListed(list: seq<CategoryMinutes>, m: map<string, CategoryMinutes>, k: string)
    requires forall i :: 0 <= i < |list| ==> CategoryIdentity(list[i].category) in m && list[i] == m[CategoryIdentity(list[i].category)]
    requires k in m ==> CategoryIdentity(m[k].category) == k
    ensures MinutesFor(list, k) == (if k in m && m[k] in list then m[k].minutes else 0)
  {
    if list != [] {
      var init, last := list[..|list| - 1], list[|list| - 1];
      assert list == init + [last];
      MinutesForListed(init, m, k);
    }
  }

  lemma ListedRepresents(list: seq<CategoryMinutes>, m: map<string, CategoryMinutes>, entries: seq<Entry>, day: Option<int>)
    requires ListsTotals(list, m) && TotalsOf(m, entries, day)
    ensures Represents(list, entries, day)
  {
    forall k ensures MinutesFor(list, k) == Tally(entries, Some(k), day) {
      MinutesForListed(list, m, k);
    }
    forall k | k in m ensures Holds(list, k) {
      assert m[k] in list;
    }
  }

  method ConfirmedExportEntries(rows: seq<Row>, clock: Clock, names: Names) returns (entries: seq<Entry>)
    ensures entries == ConfirmedEntries(rows, clock, names)
  {
    entries := [];
    for n := 0 to |rows|
      invariant entries == ConfirmedEntries(rows[..n], clock, names)
    {
      assert rows[..n + 1][..n] == rows[..n];
      if rows[n].te.attestation != Confirmed {
        continue;
      }
      entries := entries + [ToEntry(rows[n], clock, names)];
    }
    assert rows[..|rows|] == rows;
  }

  method PeriodDateRange(start: int, end: int) returns (res: Outcome<seq<int>>)
    ensures res.Failed? <==> end < start
    ensures res.Done? ==> res.value == DateRange(start, end)
  {
    if end < start {
      return Failed;
    }
    var out: seq<int> := [];
    var d := start;
    while d <= end
      invariant start <= d <= end + 1
      invariant |out| == d - start && forall i :: 0 <= i < |out| ==> out[i] == start + i
    {
      out := out + [d];
      d := d + 1;
    }
    assert out == DateRange(start, end);
    return Done(out);
  }

  /** The running totals of the entries handled so far. */
  ghost predicate Running(entries: seq<Entry>, days: seq<int>, actual: int, totals: map<string, CategoryMinutes>,
                          daily: seq<map<string, CategoryMinutes>>) {
    && actual == Tally(entries, None, None) == MapSum(totals) && TotalsOf(totals, entries, None)
    && |daily| == |days|
    && forall i :: 0 <= i < |days| ==> RunningDay(entries, days[i], daily[i])
  }

  ghost predicate RunningDay(entries: seq<Entry>, day: int, m: map<string, CategoryMinutes>) {
    TotalsOf(m, entries, Some(day)) && MapSum(m) == Tally(entries, None, Some(day))
  }

  lemma RunningDayStep(entries: seq<Entry>, e: Entry, day: int, m: map<string, CategoryMinutes>)
    requires RunningDay(entries, day, m)
    ensures RunningDay(entries + [e], day, if e.day == day then Add(m, e.category, e.minutes) else m)
  {
    AddTotals(m, entries, e, Some(day));
    AddSum(m, e.category, e.minutes);
    TallyPush(entries, e, None, Some(day));
  }

  lemma RunningStep(entries: seq<Entry>, e: Entry, days: seq<int>, actual: int, totals: map<string, CategoryMinutes>,
                    daily: seq<map<string, CategoryMinutes>>, daily': seq<map<string, CategoryMinutes>>)
    requires Running(entries, days, actual, totals, daily) && |daily'| == |days|
    requires forall i :: 0 <= i < |days| ==> daily'[i] == if e.day == days[i] then Add(daily[i], e.category, e.minutes) else daily[i]
    ensures Running(entries + [e], days, actual + e.minutes, Add(totals, e.category, e.minutes), daily')
  {
    AddTotals(totals, entries, e, None);
    AddSum(totals, e.category, e.minutes);
    TallyPush(entries, e, None, None);
    forall i | 0 <= i < |days| ensures RunningDay(entries + [e], days[i], daily'[i]) {
      RunningDayStep(entries, e, days[i], daily[i]);
    }
  }

  lemma RunningStart(days: seq<int>, daily: seq<map<string, CategoryMinutes>>)
    requires |daily| == |days| && forall i :: 0 <= i < |days| ==> daily[i] == map[]
    ensures Running([], days, 0, map[], daily)
  {
    forall i | 0 <= i < |days| ensures RunningDay([], days[i], daily[i]) { }
  }

  method IndexDays(days: seq<int>) returns (dayIndex: map<int, nat>)
    requires forall i, j :: 0 <= i < j < |days| ==> days[i] != days[j]
    ensures forall i :: 0 <= i < |days| ==> days[i] in dayIndex && dayIndex[days[i]] == i
    ensures forall d :: d in dayIndex ==> dayIndex[d] < |days| && days[dayIndex[d]] == d
  {
    dayIndex := map[];
    for n := 0 to |days|
      invariant forall i :: 0 <= i < n ==> days[i] in dayIndex && dayIndex[days[i]] == i
      invariant forall d :: d in dayIndex ==> dayIndex[d] < n && days[dayIndex[d]] == d
    {
      dayIndex := dayIndex[days[n] := n];
    }
  }

  method RollUp(entries: seq<Entry>, days: seq<int>)
    returns (actual: int, totals: map<string, CategoryMinutes>, daily: seq<map<string, CategoryMinutes>>)
    requires forall i, j :: 0 <= i < j < |days| ==> days[i] != days[j]
    ensures |daily| == |days| && Running(entries, days, actual, totals, daily)
  {
    hide Running, Add;
    actual, totals := 0, map[];
    daily := seq(|days|, i => map[]);
    var dayIndex := IndexDays(days);
    RunningStart(days, daily);
    assert entries[..0] == [];
    for n := 0 to |entries|
      invariant |daily| == |days| && Running(entries[..n], days, actual, totals, daily)
    {
      var e := entries[n];
      ghost var before := daily;
      if e.day in dayIndex {
        var i := dayIndex[e.day];
        daily := daily[i := Add(daily[i], e.category, e.minutes)];
      }
      RunningStep(entries[..n], e, days, actual, totals, before, daily);
      actual := actual + e.minutes;
      totals := Add(totals, e.category, e.minutes);
      assert entries[..n + 1] == entries[..n] + [e];
    }
    assert entries[..|entries|] == entries;
  }

  method SumMinutes(list: seq<CategoryMinutes>) returns (sum: int)
    ensures sum == ListSum(list)
  {
    sum := 0;
    for n := 0 to |list|
      invariant sum == ListSum(list[..n])
    {
      assert list[..n + 1][..n] == list[..n];
      sum := sum + list[n].minutes;
    }
    assert list[..|list|] == list;
  }

  function SumTargets(expected: seq<(int, int)>): int {
    if expected == [] then 0 else SumTargets(expected[..|expected| - 1]) + expected[|expected| - 1].1
  }

  /** The expected minutes of a date, nothing where none are listed; a later listing wins. */
  function ExpectedOn(expected: seq<(int, int)>, date: int): int {
    if expected == [] then 0
    else if expected[|expected| - 1].0 == date then expected[|expected| - 1].1
    else ExpectedOn(expected[..|expected| - 1], date)
  }

  /** A date listed once has what is listed for it. */
  lemma {:induction false} ExpectedListed(expected: seq<(int, int)>, i: nat)
    requires i < |expected| && forall j :: 0 <= j < |expected| && j != i ==> expected[j].0 != expected[i].0
    ensures ExpectedOn(expected, expected[i].0) == expected[i].1
  {
    if i < |expected| - 1 { ExpectedListed(expected[..|expected| - 1], i); }
  }

  method SumExpected(expected: seq<(int, int)>) returns (target: int, byDate: map<int, int>)
    ensures target == SumTargets(expected)
    ensures forall date :: ExpectedOn(expected, date) == if date in byDate then byDate[date] else 0
  {
    target, byDate := 0, map[];
    for n := 0 to |expected|
      invariant target == SumTargets(expected[..n])
      invariant forall date :: ExpectedOn(expected[..n], date) == if date in byDate then byDate[date] else 0
    {
      assert expected[..n + 1][..n] == expected[..n];
      byDate := byDate[expected[n].0 := expected[n].1];
      target := target + expected[n].1;
    }
    assert expected[..|expected|] == expected;
  }

  method TotalDays(entries: seq<Entry>, days: seq<int>, dailyMaps: seq<map<string, CategoryMinutes>>, byDate: map<int, int>)
    returns (daily: seq<DayTotals>)
    requires |dailyMaps| == |days| && forall i :: 0 <= i < |days| ==> RunningDay(entries, days[i], dailyMaps[i])
    ensures |daily| == |days| && forall i :: 0 <= i < |days| ==> DayRolledUp(daily[i], entries, days[i])
    ensures forall i :: 0 <= i < |days| ==> daily[i].target == if days[i] in byDate then byDate[days[i]] else 0
  {
    hide DayRolledUp, RunningDay;
    daily := [];
    for i := 0 to |days|
      invariant |daily| == i && forall j :: 0 <= j < i ==> DayRolledUp(daily[j], entries, days[j])
      invariant forall j :: 0 <= j < i ==> daily[j].target == if days[j] in byDate then byDate[days[j]] else 0
    {
      var day := TotalDay(entries, days[i], dailyMaps[i], if days[i] in byDate then byDate[days[i]] else 0);
      daily := daily + [day];
    }
  }

  method TotalDay(entries: seq<Entry>, date: int, m: map<string, CategoryMinutes>, target: int) returns (day: DayTotals)
    requires RunningDay(entries, date, m)
    ensures DayRolledUp(day, entries, date) && day.target == target
  {
    var cats := SortedCategoryMinutes(m);
    ListedRepresents(cats, m, entries, Some(date));
    hide Represents, TotalsOf, ByName;
    var dayActual := SumMinutes(cats);
    return DayTotals(date, cats, dayActual, target);
  }

  /** The export of a period: the confirmed entries of its ledger with their totals. */
  method BuildPeriodExport(env: Env, st: State, start: int, end: int, clock: Clock, names: Names,
                           expected: seq<(int, int)>) returns (res: Outcome<Model>)
    ensures res.Failed? <==> end < start
    ensures res.Done? ==>
              && RolledUp(res.value, ConfirmedEntries(env.listRows(st.entries), clock, names), DateRange(start, end))
              && res.value.target == SumTargets(expected)
              && forall i :: 0 <= i < |res.value.days| ==> res.value.daily[i].target == ExpectedOn(expected, res.value.days[i])
  {
    hide DayRolledUp, RunningDay, TotalsOf, ConfirmedEntries, SumTargets, Represents;
    var rows := env.listRows(st.entries);
    var entries := ConfirmedExportEntries(rows, clock, names);
    var range := PeriodDateRange(start, end);
    if range.Failed? {
      return Failed;
    }
    var days := range.value;
    var target, expectedByDate := SumExpected(expected);
    var actual, totalsMap, dailyMaps := RollUp(entries, days);
    var daily := TotalDays(entries, days, dailyMaps, expectedByDate);
    var totals := SortTotals(entries, totalsMap);
    return Done(Model(target, actual, days, entries, daily, totals));
  }

  method SortTotals(entries: seq<Entry>, totalsMap: map<string, CategoryMinutes>) returns (totals: seq<CategoryMinutes>)
    requires TotalsOf(totalsMap, entries, None)
    ensures ByName(totals) && Represents(totals, entries, None) && ListSum(totals) == MapSum(totalsMap)
  {
    totals := SortedCategoryMinutes(totalsMap);
    ListedRepresents(totals, totalsMap, entries, None);
  }

  // ── conservation ────────────────────────────────────────────────────

  function DailySum(daily: seq<DayTotals>): int {
    if daily == [] then 0 else DailySum(daily[..|daily| - 1]) + daily[|daily| - 1].actual
  }

  /** The sum the matrix shows at the end of a category's row. */
  function RowSum(daily: seq<DayTotals>, k: string): int {
    if daily == [] then 0 else RowSum(daily[..|daily| - 1], k) + MinutesFor(daily[|daily| - 1].categories, k)
  }

  lemma {:induction false} DailySums(daily: seq<DayTotals>, entries: seq<Entry>, days: seq<int>, k: string)
    requires |daily| == |days| && forall i :: 0 <= i < |days| ==> DayRolledUp(daily[i], entries, days[i])
    ensures DailySum(daily) == OverDays(entries, None, days) && RowSum(daily, k) == OverDays(entries, Some(k), days)
  {
    if days != [] {
      DailySums(daily[..|days| - 1], entries, days[..|days| - 1], k);
      assert DayRolledUp(daily[|days| - 1], entries, days[|days| - 1]);
    }
  }

  /** Minutes are conserved: the actual total is the sum over the confirmed entries and over the category
      totals; the daily totals, and each category's row of the matrix, add up to it less exactly the
      entries whose day lies outside the period. */
  lemma MinutesConserved(model: Model, entries: seq<Entry>, start: int, end: int, k: string)
    requires RolledUp(model, entries, DateRange(start, end))
    ensures model.actual == Tally(entries, None, None) == ListSum(model.totals)
    ensures DailySum(model.daily) == model.actual - Outside(entries, None, DateRange(start, end))
    ensures RowSum(model.daily, k) == MinutesFor(model.totals, k) - Outside(entries, Some(k), DateRange(start, end))
  {
    var days := DateRange(start, end);
    DailySums(model.daily, entries, days, k);
    DaysConserve(entries, None, days);
    DaysConserve(entries, Some(k), days);
  }

  /** In particular every confirmed row counts, once, and no other row does. */
  lemma {:induction false} OnlyConfirmedCount(rows: seq<Row>, clock: Clock, names: Names)
    ensures forall e :: e in ConfirmedEntries(rows, clock, names) <==>
              exists r :: r in rows && r.te.attestation == Confirmed && ToEntry(r, clock, names) == e
    ensures forall k, d :: Tally(ConfirmedEntries(rows, clock, names), k, d) >= 0
  {
    if rows != [] {
      var init, last := rows[..|rows| - 1], rows[|rows| - 1];
      OnlyConfirmedCount(init, clock, names);
      assert rows == init + [last];
      forall k: Option<string>, d: Option<int> ensures Tally(ConfirmedEntries(rows, clock, names), k, d) >= 0 {
        if last.te.attestation == Confirmed {
          TallyPush(ConfirmedEntries(init, clock, names), ToEntry(last, clock, names), k, d);
        } else {
          assert ConfirmedEntries(rows, clock, names) == ConfirmedEntries(init, clock, names);
        }
      }
    }
  }
}
