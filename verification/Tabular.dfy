/** The three table renderers of internal/service/export_tabular.go: each prints exactly the table its
    layout describes, so by the reader of `Delimited` every cell can be recovered. */
module Tabular {
  import opened Wrappers
  import opened Delimited
  import opened Export
  import opened LedgerTypes

  datatype Field = DateField | NameField | KeyField | HoursField | MinutesField | StartField | EndField | TitleField
                 | DescriptionField | SourceField | WorkTypeField | ProjectNameField | ProjectKeyField
                 | BillableField | DayActualField | DayTargetField | TotalField

  datatype Column = Column(field: Field, header: string)

  /** How numbers and dates become text. */
  datatype Format = Format(date: int -> string, at: (int, int) -> string, hours: int -> string, digits: int -> string)

  function Headers(columns: seq<Column>): seq<string> {
    seq(|columns|, i requires 0 <= i < |columns| => columns[i].header)
  }

  method HeaderRow(columns: seq<Column>) returns (header: seq<string>)
    ensures header == Headers(columns)
  {
    header := [];
    for i := 0 to |columns|
      invariant |header| == i && forall j :: 0 <= j < i ==> header[j] == columns[j].header
    {
      header := header + [columns[i].header];
    }
  }

  // ── flat rollup ─────────────────────────────────────────────────────

  function FlatCell(f: Format, field: Field, day: DayTotals, c: CategoryMinutes): string {
    match field
    case DateField => f.date(day.date)
    case NameField => c.category.name
    case KeyField => CategoryIdentity(c.category)
    case HoursField => f.hours(c.minutes)
    case MinutesField => f.digits(c.minutes)
    case DayActualField => f.hours(day.actual)
    case DayTargetField => f.hours(day.target)
    case _ => ""
  }

  function FlatRow(f: Format, columns: seq<Column>, day: DayTotals, c: CategoryMinutes): seq<string> {
    seq(|columns|, i requires 0 <= i < |columns| => FlatCell(f, columns[i].field, day, c))
  }

  function FlatDayRows(f: Format, columns: seq<Column>, day: DayTotals, categories: seq<CategoryMinutes>): seq<seq<string>> {
    if categories == [] then []
    else FlatDayRows(f, columns, day, categories[..|categories| - 1]) + [FlatRow(f, columns, day, categories[|categories| - 1])]
  }

  function FlatRows(f: Format, columns: seq<Column>, daily: seq<DayTotals>): seq<seq<string>> {
    if daily == [] then []
    else
      var day := daily[|daily| - 1];
      FlatRows(f, columns, daily[..|daily| - 1]) + FlatDayRows(f, columns, day, day.categories)
  }

  function FlatTable(f: Format, columns: seq<Column>, model: Model): seq<seq<string>> {
    [Headers(columns)] + FlatRows(f, columns, model.daily)
  }

  /** The lines printed so far. */
  predicate Printed(lines: seq<string>, table: seq<seq<string>>, delimiter: char) {
    |lines| == |table| && forall i :: 0 <= i < |table| ==> lines[i] == PrintRow(table[i], delimiter)
  }

  lemma PrintedTable(lines: seq<string>, table: seq<seq<string>>, delimiter: char)
    requires Printed(lines, table, delimiter)
    ensures Join(lines, NEWLINE) == PrintTable(table, delimiter)
  {
    assert lines == seq(|table|, i requires 0 <= i < |table| => PrintRow(table[i], delimiter));
  }

  method FlatCells(f: Format, columns: seq<Column>, day: DayTotals, c: CategoryMinutes) returns (row: seq<string>)
    ensures row == FlatRow(f, columns, day, c)
  {
    row := [];
    for i := 0 to |columns|
      invariant |row| == i && forall j :: 0 <= j < i ==> row[j] == FlatCell(f, columns[j].field, day, c)
    {
      row := row + [FlatCell(f, columns[i].field, day, c)];
    }
  }

  method RenderFlatRollup(f: Format, columns: seq<Column>, model: Model, delimiter: char) returns (text: string)
    ensures text == PrintTable(FlatTable(f, columns, model), delimiter)
  {
    hide PrintRow, FlatRow, Headers;
    var header := HeaderRow(columns);
    var line := JoinDelimited(header, delimiter);
    var lines := [line];
    for n := 0 to |model.daily|
      invariant Printed(lines, [header] + FlatRows(f, columns, model.daily[..n]), delimiter)
    {
      assert model.daily[..n + 1][..n] == model.daily[..n];
      var day := model.daily[n];
      ghost var before := [header] + FlatRows(f, columns, model.daily[..n]);
      for m := 0 to |day.categories|
        invariant Printed(lines, before + FlatDayRows(f, columns, day, day.categories[..m]), delimiter)
      {
        assert day.categories[..m + 1][..m] == day.categories[..m];
        var row := FlatCells(f, columns, day, day.categories[m]);
        line := JoinDelimited(row, delimiter);
        lines := lines + [line];
      }
      assert day.categories[..|day.categories|] == day.categories;
      assert before + FlatDayRows(f, columns, day, day.categories) == [header] + FlatRows(f, columns, model.daily[..n + 1]);
    }
    assert model.daily[..|model.daily|] == model.daily;
    PrintedTable(lines, FlatTable(f, columns, model), delimiter);
    return Join(lines, NEWLINE);
  }

  // ── detail ──────────────────────────────────────────────────────────

  /** Day, then start, then row id; the source is the same for all. */
  predicate DetailBefore(a: Entry, b: Entry) {
    a.day < b.day || (a.day == b.day && (a.start < b.start || (a.start == b.start && a.sourceId < b.sourceId)))
  }

  predicate InDetailOrder(entries: seq<Entry>) {
    forall i, j :: 0 <= i < j < |entries| ==> !DetailBefore(entries[j], entries[i])
  }

  function InsertEntry(sorted: seq<Entry>, e: Entry): seq<Entry> {
    if sorted == [] || !DetailBefore(e, sorted[|sorted| - 1]) then sorted + [e]
    else InsertEntry(sorted[..|sorted| - 1], e) + [sorted[|sorted| - 1]]
  }

  /** A stable sort of a copy: the model keeps its order. */
  function SortEntries(entries: seq<Entry>): seq<Entry> {
    if entries == [] then [] else InsertEntry(SortEntries(entries[..|entries| - 1]), entries[|entries| - 1])
  }

  lemma DetailTransitive(a: Entry, b: Entry, c: Entry)
    requires !DetailBefore(b, a) && !DetailBefore(c, b)
    ensures !DetailBefore(c, a)
  {
  }

  lemma {:induction false} InsertedInOrder(sorted: seq<Entry>, e: Entry)
    requires InDetailOrder(sorted)
    ensures InDetailOrder(InsertEntry(sorted, e))
    ensures multiset(InsertEntry(sorted, e)) == multiset(sorted) + multiset{e}
  {
    if sorted != [] {
      var init, last := sorted[..|sorted| - 1], sorted[|sorted| - 1];
      assert sorted == init + [last];
      if DetailBefore(e, last) {
        InsertedInOrder(init, e);
        AppendInOrder(InsertEntry(init, e), last, init, e);
      } else {
        forall i | 0 <= i < |sorted| ensures !DetailBefore(e, sorted[i]) {
          if i < |sorted| - 1 { DetailTransitive(sorted[i], last, e); }
        }
      }
    }
  }

  /** A row that belongs after all others of a permutation may be appended to it. */
  lemma AppendInOrder(r: seq<Entry>, last: Entry, init: seq<Entry>, e: Entry)
    requires InDetailOrder(r) && multiset(r) == multiset(init) + multiset{e}
    requires InDetailOrder(init + [last]) && DetailBefore(e, last)
    ensures InDetailOrder(r + [last])
  {
    forall i | 0 <= i < |r| ensures !DetailBefore(last, r[i]) {
      assert r[i] in multiset(r);
      if r[i] != e {
        assert r[i] in init;
        var j :| 0 <= j < |init| && init[j] == r[i];
        assert (init + [last])[j] == r[i] && (init + [last])[|init|] == last;
      }
    }
  }

  /** The detail export prints every entry exactly once, in day, start and row order. */
  lemma {:induction false} DetailSorted(entries: seq<Entry>)
    ensures InDetailOrder(SortEntries(entries)) && multiset(SortEntries(entries)) == multiset(entries)
  {
    hide DetailBefore, InsertEntry;
    if entries == [] {
      assert InDetailOrder([]);
    } else {
      DetailSorted(entries[..|entries| - 1]);
      InsertedInOrder(SortEntries(entries[..|entries| - 1]), entries[|entries| - 1]);
      assert entries == entries[..|entries| - 1] + [entries[|entries| - 1]];
    }
  }

  function WorkTypeName(w: WorkType): string {
    match w
    case Worked => "worked"
    case PaidLeave => "paid_leave"
    case UnpaidLeave => "unpaid_leave"
    case Holiday => "holiday"
    case Break => "break"
    case Adjustment => "adjustment"
  }

  function BillableName(b: Billable): string {
    match b
    case Unset => "unset"
    case Billable => "billable"
    case NonBillable => "non_billable"
  }

  function DetailCell(f: Format, field: Field, e: Entry): string {
    match field
    case DateField => f.date(e.day)
    case StartField => f.at(e.day, e.start)
    case EndField => f.at(e.day, e.end)
    case NameField => e.category.name
    case KeyField => CategoryIdentity(e.category)
    case HoursField => f.hours(e.minutes)
    case MinutesField => f.digits(e.minutes)
    case TitleField => e.title
    case DescriptionField => e.description
    case SourceField => "time_entry"
    case WorkTypeField => WorkTypeName(e.workType)
    case ProjectNameField => e.project.name
    case ProjectKeyField => e.project.key
    case BillableField => BillableName(e.billable)
    case _ => ""
  }

  function DetailRow(f: Format, columns: seq<Column>, e: Entry): seq<string> {
    seq(|columns|, i requires 0 <= i < |columns| => DetailCell(f, columns[i].field, e))
  }

  function DetailTable(f: Format, columns: seq<Column>, entries: seq<Entry>): seq<seq<string>> {
    if entries == [] then [Headers(columns)]
    else DetailTable(f, columns, entries[..|entries| - 1]) + [DetailRow(f, columns, entries[|entries| - 1])]
  }

  method DetailCells(f: Format, columns: seq<Column>, e: Entry) returns (row: seq<string>)
    ensures row == DetailRow(f, columns, e)
  {
    row := [];
    for i := 0 to |columns|
      invariant |row| == i && forall j :: 0 <= j < i ==> row[j] == DetailCell(f, columns[j].field, e)
    {
      row := row + [DetailCell(f, columns[i].field, e)];
    }
  }

  method PrintDetail(f: Format, columns: seq<Column>, entries: seq<Entry>, delimiter: char) returns (text: string)
    ensures text == PrintTable(DetailTable(f, columns, entries), delimiter)
  {
    hide PrintRow, DetailRow, Headers;
    var header := HeaderRow(columns);
    var line := JoinDelimited(header, delimiter);
    var lines := [line];
    for n := 0 to |entries|
      invariant Printed(lines, DetailTable(f, columns, entries[..n]), delimiter)
    {
      assert entries[..n + 1][..n] == entries[..n];
      var row := DetailCells(f, columns, entries[n]);
      line := JoinDelimited(row, delimiter);
      lines := lines + [line];
    }
    assert entries[..|entries|] == entries;
    PrintedTable(lines, DetailTable(f, columns, entries), delimiter);
    return Join(lines, NEWLINE);
  }

  method RenderDetail(f: Format, columns: seq<Column>, model: Model, delimiter: char) returns (text: string)
    ensures text == PrintTable(DetailTable(f, columns, SortEntries(model.entries)), delimiter)
  {
    text := PrintDetail(f, columns, SortEntries(model.entries), delimiter);
  }

  // ── matrix ──────────────────────────────────────────────────────────

  function Leading(columns: seq<Column>): seq<Column> {
    if columns == [] then []
    else Leading(columns[..|columns| - 1]) + if columns[|columns| - 1].field == TotalField then [] else [columns[|columns| - 1]]
  }

  function Trailing(columns: seq<Column>): seq<Column> {
    if columns == [] then []
    else Trailing(columns[..|columns| - 1]) + if columns[|columns| - 1].field == TotalField then [columns[|columns| - 1]] else []
  }

  function LabelCell(field: Field, c: Category): string {
    match field
    case NameField => c.name
    case KeyField => CategoryIdentity(c)
    case _ => ""
  }

  function Labels(columns: seq<Column>, c: Category): seq<string> {
    seq(|columns|, i requires 0 <= i < |columns| => LabelCell(columns[i].field, c))
  }

  function Repeat(cell: string, n: nat): seq<string> {
    seq(n, _ => cell)
  }

  function DayCells(f: Format, daily: seq<DayTotals>, k: string): seq<string> {
    seq(|daily|, i requires 0 <= i < |daily| => f.hours(MinutesFor(daily[i].categories, k)))
  }

  function DateCells(f: Format, days: seq<int>): seq<string> {
    seq(|days|, i requires 0 <= i < |days| => f.date(days[i]))
  }

  /** Labels, one cell per day, then the sum over the days. */
  function MatrixRow(f: Format, columns: seq<Column>, model: Model, c: Category): seq<string> {
    Labels(Leading(columns), c) + DayCells(f, model.daily, CategoryIdentity(c))
    + Repeat(f.hours(RowSum(model.daily, CategoryIdentity(c))), |Trailing(columns)|)
  }

  function MatrixHeader(f: Format, columns: seq<Column>, model: Model): seq<string> {
    Headers(Leading(columns)) + DateCells(f, model.days) + Headers(Trailing(columns))
  }

  function MatrixTable(f: Format, columns: seq<Column>, model: Model, totals: seq<CategoryMinutes>): seq<seq<string>> {
    if totals == [] then [MatrixHeader(f, columns, model)]
    else MatrixTable(f, columns, model, totals[..|totals| - 1]) + [MatrixRow(f, columns, model, totals[|totals| - 1].category)]
  }

  method SplitColumns(columns: seq<Column>) returns (leading: seq<Column>, trailing: seq<Column>)
    ensures leading == Leading(columns) && trailing == Trailing(columns)
  {
    leading, trailing := [], [];
    for n := 0 to |columns|
      invariant leading == Leading(columns[..n]) && trailing == Trailing(columns[..n])
    {
      assert columns[..n + 1][..n] == columns[..n];
      if columns[n].field == TotalField {
        trailing := trailing + [columns[n]];
        continue;
      }
      leading := leading + [columns[n]];
    }
    assert columns[..|columns|] == columns;
  }

  /** The lookup table of one day. */
  method DayMinutes(list: seq<CategoryMinutes>) returns (m: map<string, int>)
    ensures forall k :: (if k in m then m[k] else 0) == MinutesFor(list, k)
  {
    m := map[];
    for n := 0 to |list|
      invariant forall k :: (if k in m then m[k] else 0) == MinutesFor(list[..n], k)
    {
      assert list[..n + 1][..n] == list[..n];
      m := m[CategoryIdentity(list[n].category) := list[n].minutes];
    }
    assert list[..|list|] == list;
  }

  method MatrixCells(f: Format, leading: seq<Column>, trailing: seq<Column>, daily: seq<DayTotals>, c: Category) returns (row: seq<string>)
    ensures row == Labels(leading, c) + DayCells(f, daily, CategoryIdentity(c)) + Repeat(f.hours(RowSum(daily, CategoryIdentity(c))), |trailing|)
  {
    var labels: seq<string> := [];
    for i := 0 to |leading|
      invariant |labels| == i && forall j :: 0 <= j < i ==> labels[j] == LabelCell(leading[j].field, c)
    {
      labels := labels + [LabelCell(leading[i].field, c)];
    }
    var cells: seq<string> := [];
    var sum := 0;
    for i := 0 to |daily|
      invariant |cells| == i && forall j :: 0 <= j < i ==> cells[j] == f.hours(MinutesFor(daily[j].categories, CategoryIdentity(c)))
      invariant sum == RowSum(daily[..i], CategoryIdentity(c))
    {
      assert daily[..i + 1][..i] == daily[..i];
      var dayMap := DayMinutes(daily[i].categories);
      var minutes := if CategoryIdentity(c) in dayMap then dayMap[CategoryIdentity(c)] else 0;
      sum := sum + minutes;
      cells := cells + [f.hours(minutes)];
    }
    assert daily[..|daily|] == daily;
    assert labels == Labels(leading, c) && cells == DayCells(f, daily, CategoryIdentity(c));
    row := labels + cells;
    for i := 0 to |trailing|
      invariant row == Labels(leading, c) + DayCells(f, daily, CategoryIdentity(c)) + Repeat(f.hours(sum), i)
    {
      assert Repeat(f.hours(sum), i + 1) == Repeat(f.hours(sum), i) + [f.hours(sum)];
      row := row + [f.hours(sum)];
    }
  }

  method MatrixHeaderCells(f: Format, leading: seq<Column>, trailing: seq<Column>, days: seq<int>) returns (header: seq<string>)
    ensures header == Headers(leading) + DateCells(f, days) + Headers(trailing)
  {
    var first := HeaderRow(leading);
    var last := HeaderRow(trailing);
    var dates: seq<string> := [];
    for i := 0 to |days|
      invariant |dates| == i && forall j :: 0 <= j < i ==> dates[j] == f.date(days[j])
    {
      dates := dates + [f.date(days[i])];
    }
    assert dates == DateCells(f, days);
    return first + dates + last;
  }

  method RenderMatrix(f: Format, columns: seq<Column>, model: Model, delimiter: char) returns (text: string)
    ensures text == PrintTable(MatrixTable(f, columns, model, model.totals), delimiter)
  {
    hide PrintRow, Labels, DayCells, Repeat, RowSum, Headers, DateCells;
    var leading, trailing := SplitColumns(columns);
    var header := MatrixHeaderCells(f, leading, trailing, model.days);
    var line := JoinDelimited(header, delimiter);
    var lines := [line];
    for n := 0 to |model.totals|
      invariant Printed(lines, MatrixTable(f, columns, model, model.totals[..n]), delimiter)
    {
      assert model.totals[..n + 1][..n] == model.totals[..n];
      var row := MatrixCells(f, leading, trailing, model.daily, model.totals[n].category);
      line := JoinDelimited(row, delimiter);
      lines := lines + [line];
    }
    assert model.totals[..|model.totals|] == model.totals;
    PrintedTable(lines, MatrixTable(f, columns, model, model.totals), delimiter);
    return Join(lines, NEWLINE);
  }

  /** The total printed at the end of a matrix row is the category's period total less exactly its minutes
      on days outside the period. */
  lemma MatrixTotalConserves(f: Format, columns: seq<Column>, model: Model, entries: seq<Entry>, start: int, end: int, c: Category)
    requires RolledUp(model, entries, DateRange(start, end)) && Trailing(columns) != []
    ensures var (row, k) := (MatrixRow(f, columns, model, c), CategoryIdentity(c));
            row[|row| - 1] == f.hours(MinutesFor(model.totals, k) - Outside(entries, Some(k), DateRange(start, end)))
  {
    hide RolledUp, MinutesFor, Labels, DayCells, Outside;
    MinutesConserved(model, entries, start, end, CategoryIdentity(c));
  }

  // ── what the cells say ──────────────────────────────────────────────

  /** Each cell of a detail row, from the row of the ledger it is printed for: its work date, its local start, the end
      its counted minutes later, its category and texts, and its allocation. */
  lemma DetailPrintsRow(f: Format, clock: Clock, names: Names, columns: seq<Column>, r: Row, i: nat)
    requires i < |columns|
    ensures var (te, cell) := (r.te, DetailRow(f, columns, ToEntry(r, clock, names))[i]);
            var (start, category) := (clock.minute(te.day, te.span.start), CategoryFor(te.category, names.categories));
            match columns[i].field
            case DateField => cell == f.date(te.day)
            case StartField => cell == f.at(te.day, start)
            case EndField => cell == f.at(te.day, start + Counted(te, clock))
            case HoursField => cell == f.hours(Counted(te, clock))
            case MinutesField => cell == f.digits(Counted(te, clock))
            case NameField => cell == category.name
            case KeyField => cell == if category.key == "" then category.name else category.key
            case TitleField => cell == if te.description == "" then category.name else te.description
            case DescriptionField => cell == te.description
            case SourceField => cell == "time_entry"
            case WorkTypeField =>
              && (te.allocation.workType == Worked ==> cell == "worked") && (te.allocation.workType == PaidLeave ==> cell == "paid_leave")
              && (te.allocation.workType == UnpaidLeave ==> cell == "unpaid_leave") && (te.allocation.workType == Holiday ==> cell == "holiday")
              && (te.allocation.workType == Break ==> cell == "break") && (te.allocation.workType == Adjustment ==> cell == "adjustment")
            case ProjectNameField => cell == ProjectFor(te.allocation.project, names.projects).name
            case ProjectKeyField => cell == ProjectFor(te.allocation.project, names.projects).key
            case BillableField => cell == if te.allocation.billable == Unset then "unset" else if te.allocation.billable == NonBillable then "non_billable" else "billable"
            case _ => cell == ""
  {
    EntryFields(r, clock, names);
  }

  /** Each cell of a flat row: the date, a category of that date, the minutes of the entries of that category on that
      date, and the actual and target minutes of the date. */
  lemma FlatPrintsDay(f: Format, columns: seq<Column>, model: Model, entries: seq<Entry>, days: seq<int>, n: nat, m: nat, i: nat)
    requires RolledUp(model, entries, days) && n < |days| && m < |model.daily[n].categories| && i < |columns|
    ensures var (day, c) := (model.daily[n], model.daily[n].categories[m].category);
            var (k, cell) := (if c.key == "" then c.name else c.key, FlatRow(f, columns, day, day.categories[m])[i]);
            && FirstCategory(entries, k, Some(days[n])) == Some(c)
            && match columns[i].field
               case DateField => cell == f.date(days[n])
               case NameField => cell == c.name
               case KeyField => cell == k
               case HoursField => cell == f.hours(Tally(entries, Some(k), Some(days[n])))
               case MinutesField => cell == f.digits(Tally(entries, Some(k), Some(days[n])))
               case DayActualField => cell == f.hours(Tally(entries, None, Some(days[n])))
               case DayTargetField => cell == f.hours(day.target)
               case _ => cell == ""
  {
    assert DayRolledUp(model.daily[n], entries, days[n]);
    LineIsFound(model.daily[n].categories, m);
  }

  lemma {:induction false} LineIsFound(list: seq<CategoryMinutes>, m: nat)
    requires OneEach(list) && m < |list|
    ensures MinutesFor(list, CategoryIdentity(list[m].category)) == list[m].minutes
  {
    if m < |list| - 1 { LineIsFound(list[..|list| - 1], m); }
  }

  /** The flat table has exactly one row for each date and each category of it. */
  lemma {:induction false} FlatRowsAre(f: Format, columns: seq<Column>, daily: seq<DayTotals>, row: seq<string>)
    ensures row in FlatRows(f, columns, daily) <==>
              exists n, m :: 0 <= n < |daily| && 0 <= m < |daily[n].categories| && row == FlatRow(f, columns, daily[n], daily[n].categories[m])
    ensures |FlatRows(f, columns, daily)| == LineCount(daily)
  {
    hide FlatRow;
    if daily != [] {
      var init, day := daily[..|daily| - 1], daily[|daily| - 1];
      FlatRowsAre(f, columns, init, row);
      FlatDayRowsAre(f, columns, day, day.categories, row);
      if row in FlatRows(f, columns, init) {
        var n, m :| 0 <= n < |init| && 0 <= m < |init[n].categories| && row == FlatRow(f, columns, init[n], init[n].categories[m]);
        assert daily[n] == init[n];
      }
      if row in FlatDayRows(f, columns, day, day.categories) {
        var m :| 0 <= m < |day.categories| && row == FlatRow(f, columns, day, day.categories[m]);
        assert daily[|daily| - 1].categories[m] == day.categories[m];
      }
    }
  }

  function LineCount(daily: seq<DayTotals>): nat {
    if daily == [] then 0 else LineCount(daily[..|daily| - 1]) + |daily[|daily| - 1].categories|
  }

  lemma {:induction false} FlatDayRowsAre(f: Format, columns: seq<Column>, day: DayTotals, categories: seq<CategoryMinutes>, row: seq<string>)
    ensures row in FlatDayRows(f, columns, day, categories) <==>
              exists m :: 0 <= m < |categories| && row == FlatRow(f, columns, day, categories[m])
    ensures |FlatDayRows(f, columns, day, categories)| == |categories|
  {
    hide FlatRow;
    if categories != [] {
      var init := categories[..|categories| - 1];
      FlatDayRowsAre(f, columns, day, init, row);
      if row in FlatDayRows(f, columns, day, init) {
        var m :| 0 <= m < |init| && row == FlatRow(f, columns, day, init[m]);
        assert categories[m] == init[m];
      }
    }
  }

  /** The cell of a category under a date: the minutes of the entries of that category on that date. */
  lemma MatrixPrintsDay(f: Format, columns: seq<Column>, model: Model, entries: seq<Entry>, days: seq<int>, c: Category, n: nat)
    requires RolledUp(model, entries, days) && n < |days|
    ensures var at := |Leading(columns)| + n;
            && at < |MatrixHeader(f, columns, model)| && MatrixHeader(f, columns, model)[at] == f.date(days[n])
            && at < |MatrixRow(f, columns, model, c)|
            && MatrixRow(f, columns, model, c)[at] == f.hours(Tally(entries, Some(if c.key == "" then c.name else c.key), Some(days[n])))
  {
    DayTally(model, entries, days, n, if c.key == "" then c.name else c.key);
    hide RolledUp, MinutesFor, Tally, RowSum, Labels, Headers;
  }

  lemma DayTally(model: Model, entries: seq<Entry>, days: seq<int>, n: nat, k: string)
    requires RolledUp(model, entries, days) && n < |days|
    ensures model.days == days && |model.daily| == |days| && MinutesFor(model.daily[n].categories, k) == Tally(entries, Some(k), Some(days[n]))
  {
    hide MinutesFor, Tally;
    assert DayRolledUp(model.daily[n], entries, days[n]);
  }

  /** The columns before the dates are those that are not totals, in their order, and those after them are the others. */
  lemma {:induction false} ColumnsSplit(a: seq<Column>, b: seq<Column>, x: Column)
    ensures Leading(a + b) == Leading(a) + Leading(b) && Trailing(a + b) == Trailing(a) + Trailing(b)
    ensures Leading([x]) == (if x.field == TotalField then [] else [x]) && Trailing([x]) == if x.field == TotalField then [x] else []
  {
    assert Leading([]) == [] && Trailing([]) == [] && [x][..0] == [];
    if b == [] {
      assert a + b == a;
    } else {
      ColumnsSplit(a, b[..|b| - 1], x);
      assert (a + b)[..|a + b| - 1] == a + b[..|b| - 1];
    }
  }

  lemma MatrixPrintsCategory(f: Format, columns: seq<Column>, model: Model, c: Category, i: nat)
    requires i < |Leading(columns)|
    ensures i < |MatrixHeader(f, columns, model)| && MatrixHeader(f, columns, model)[i] == Leading(columns)[i].header
    ensures i < |MatrixRow(f, columns, model, c)|
    ensures match Leading(columns)[i].field
            case NameField => MatrixRow(f, columns, model, c)[i] == c.name
            case KeyField => MatrixRow(f, columns, model, c)[i] == if c.key == "" then c.name else c.key
            case _ => MatrixRow(f, columns, model, c)[i] == ""
  {
    var leading := Leading(columns);
    assert Labels(leading, c)[i] == LabelCell(leading[i].field, c);
  }

  /** Below the headers, the detail table has one row for each entry and the matrix one for each category, in order. */
  lemma {:induction false} RowByRow(f: Format, columns: seq<Column>, model: Model, entries: seq<Entry>, totals: seq<CategoryMinutes>)
    ensures var table := DetailTable(f, columns, entries);
            && |table| == |entries| + 1 && |table[0]| == |columns| && (forall i :: 0 <= i < |columns| ==> table[0][i] == columns[i].header)
            && (forall n :: 0 <= n < |entries| ==> table[n + 1] == DetailRow(f, columns, entries[n]))
    ensures var table := MatrixTable(f, columns, model, totals);
            && |table| == |totals| + 1 && table[0] == MatrixHeader(f, columns, model)
            && (forall n :: 0 <= n < |totals| ==> table[n + 1] == MatrixRow(f, columns, model, totals[n].category))
    decreases |entries| + |totals|
  {
    hide DetailRow, MatrixRow, MatrixHeader;
    if entries != [] { RowByRow(f, columns, model, entries[..|entries| - 1], totals); }
    if totals != [] { RowByRow(f, columns, model, entries, totals[..|totals| - 1]); }
  }

  // ── what can be read back ───────────────────────────────────────────

  lemma {:induction false} LeadingKept(columns: seq<Column>)
    ensures |Leading(columns)| + |Trailing(columns)| == |columns|
  {
    if columns != [] { LeadingKept(columns[..|columns| - 1]); }
  }

  lemma {:induction false} MatrixRowsFull(f: Format, columns: seq<Column>, model: Model, totals: seq<CategoryMinutes>)
    requires columns != [] && |model.days| == |model.daily|
    ensures var table := MatrixTable(f, columns, model, totals);
            table != [] && forall i :: 0 <= i < |table| ==> |table[i]| == |columns| + |model.days|
  {
    LeadingKept(columns);
    if totals != [] { MatrixRowsFull(f, columns, model, totals[..|totals| - 1]); }
  }

  lemma {:induction false} FlatRowsFull(f: Format, columns: seq<Column>, daily: seq<DayTotals>)
    ensures forall i :: 0 <= i < |FlatRows(f, columns, daily)| ==> |FlatRows(f, columns, daily)[i]| == |columns|
  {
    if daily != [] {
      FlatRowsFull(f, columns, daily[..|daily| - 1]);
      FlatDayRowsFull(f, columns, daily[|daily| - 1], daily[|daily| - 1].categories);
    }
  }

  lemma {:induction false} FlatDayRowsFull(f: Format, columns: seq<Column>, day: DayTotals, categories: seq<CategoryMinutes>)
    ensures forall i :: 0 <= i < |FlatDayRows(f, columns, day, categories)| ==> |FlatDayRows(f, columns, day, categories)[i]| == |columns|
  {
    if categories != [] { FlatDayRowsFull(f, columns, day, categories[..|categories| - 1]); }
  }

  lemma {:induction false} DetailRowsFull(f: Format, columns: seq<Column>, entries: seq<Entry>)
    ensures var table := DetailTable(f, columns, entries);
            table != [] && forall i :: 0 <= i < |table| ==> |table[i]| == |columns|
  {
    if entries != [] { DetailRowsFull(f, columns, entries[..|entries| - 1]); }
  }

  /** With at least one column, as every valid template has, each printed export reads back to exactly
      its table: titles, descriptions and category names survive whatever characters they hold. */
  lemma ExportsReadBack(f: Format, columns: seq<Column>, model: Model, delimiter: char)
    requires columns != [] && Delimiter(delimiter) && |model.days| == |model.daily|
    ensures ReadTable(PrintTable(MatrixTable(f, columns, model, model.totals), delimiter), delimiter)
            == Some(MatrixTable(f, columns, model, model.totals))
    ensures ReadTable(PrintTable(FlatTable(f, columns, model), delimiter), delimiter) == Some(FlatTable(f, columns, model))
    ensures ReadTable(PrintTable(DetailTable(f, columns, SortEntries(model.entries)), delimiter), delimiter)
            == Some(DetailTable(f, columns, SortEntries(model.entries)))
  {
    hide ReadTable, PrintTable;
    MatrixRowsFull(f, columns, model, model.totals);
    ReadTableBack(MatrixTable(f, columns, model, model.totals), delimiter);
    FlatRowsFull(f, columns, model.daily);
    ReadTableBack(FlatTable(f, columns, model), delimiter);
    DetailRowsFull(f, columns, SortEntries(model.entries));
    ReadTableBack(DetailTable(f, columns, SortEntries(model.entries)), delimiter);
  }
}
