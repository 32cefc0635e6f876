/** What becomes of a draft that is split or confirmed: the rows created from it, field by field, where they
    begin and end, and how many minutes they hold together. */
module LedgerPieces {
  import opened Wrappers
  import opened Intervals
  import opened Cutting
  import opened LedgerTypes
  import opened LedgerSpec
  import opened LedgerSteps
  import opened LedgerUser
  import opened LedgerConfirm
  import opened LedgerDecisions

  /** A row cut from a draft: it counts its own minutes, its work date is that of its start in the zone of the
      draft's work date, and everything else is the draft's. */
  predicate Inherits(te: TimeEntry, zone: Zone, row: TimeEntry) {
    && row.minutes == Minutes(row.span) && row.day == zone.day(row.span.start)
    && row.category == te.category && row.description == te.description && row.allocation == te.allocation
    && row.source == te.source && row.revision == te.revision && row.how == te.how
  }

  /** The minutes that `n` rows with consecutive ids hold together. */
  function RowMinutes(entries: map<nat, TimeEntry>, from: nat, n: nat): int
    requires forall x :: from <= x < from + n ==> x in entries
  {
    if n == 0 then 0 else RowMinutes(entries, from, n - 1) + entries[from + n - 1].minutes
  }

  lemma {:induction false} RowMinutesAre(entries: map<nat, TimeEntry>, from: nat, pieces: seq<Interval>)
    requires forall x :: from <= x < from + |pieces| ==> x in entries && entries[x].minutes == Minutes(pieces[x - from])
    ensures RowMinutes(entries, from, |pieces|) == SumMinutes(pieces)
  {
    hide Minutes;
    if |pieces| > 0 {
      RowMinutesAre(entries, from, pieces[..|pieces| - 1]);
    }
  }

  /** The draft `id` was dismissed in favour of `n` new rows that inherit from it. */
  ghost predicate CutUp(st: State, st': State, id: nat, zone: Zone, n: nat, a: Attestation)
    requires id in st.entries
  {
    && st' == st.(entries := st'.entries, nextEntry := st.nextEntry + n)
    && (forall x :: x in st'.entries <==> x in st.entries || st.nextEntry <= x < st.nextEntry + n)
    && (forall x :: x in st.entries && x != id ==> st'.entries[x] == st.entries[x])
    && st'.entries[id] == st.entries[id].(attestation := Dismissed)
    && (forall x :: st.nextEntry <= x < st.nextEntry + n ==>
          Inherits(st.entries[id], zone, st'.entries[x]) && st'.entries[x].attestation == a)
  }

  /** The rows from the id `from` on have the given spans, in order. */
  ghost predicate Spanned(st: State, from: nat, spans: seq<Interval>) {
    forall x :: from <= x < from + |spans| ==> x in st.entries && st.entries[x].span == spans[x - from]
  }

  lemma CutUpBySplit(st: State, st': State, id: nat, zone: Zone, pieces: seq<Interval>)
    requires WellFormed(st) && id in st.entries && SplitInto(st, st', id, zone, pieces)
    ensures CutUp(st, st', id, zone, |pieces|, Draft)
    ensures Spanned(st', st.nextEntry, pieces)
  {
    assert id < st.nextEntry;
    hide WellFormed, Minutes;
  }

  lemma CutUpByConfirm(st: State, st': State, id: nat, zone: Zone, pieces: seq<Interval>)
    requires WellFormed(st) && id in st.entries && Replaced(st, st', id, zone, pieces)
    ensures CutUp(st, st', id, zone, |pieces|, Confirmed)
    ensures Spanned(st', st.nextEntry, pieces)
  {
    assert id < st.nextEntry;
    hide WellFormed, Minutes;
  }

  lemma CutUpMinutes(st: State, st': State, id: nat, zone: Zone, pieces: seq<Interval>, a: Attestation)
    requires id in st.entries && CutUp(st, st', id, zone, |pieces|, a)
    requires Spanned(st', st.nextEntry, pieces)
    ensures forall x :: st.nextEntry <= x < st.nextEntry + |pieces| ==> x in st'.entries
    ensures RowMinutes(st'.entries, st.nextEntry, |pieces|) == SumMinutes(pieces)
  {
    hide Minutes;
    RowMinutesAre(st'.entries, st.nextEntry, pieces);
  }

  // ── splitting a draft ───────────────────────────────────────────────

  /** The `i`-th segment of a span between ascending cuts. */
  function Segment(span: Interval, cuts: seq<int>, i: nat): Interval
    requires i <= |cuts|
  {
    Interval(if i == 0 then span.start else cuts[i - 1], if i == |cuts| then span.end else cuts[i])
  }

  /** The minutes that `n` rows hold together against those of the span they were cut from: at most one is lost
      at each cut, and none is gained as long as those of the span do not saturate. */
  ghost predicate Floored(st: State, from: nat, n: nat, span: Interval) {
    && n > 0 && (forall x :: from <= x < from + n ==> x in st.entries)
    && Minutes(span) - (n - 1) <= RowMinutes(st.entries, from, n)
    && (LedgerDecisions.Counts(span) ==> RowMinutes(st.entries, from, n) <= Minutes(span))
  }

  /** A split replaces the draft by one draft for each segment between the cuts, each with its own minutes and
      work date and otherwise like the draft; no minute is lost when all segments are whole. */
  lemma SplitRows(env: Env, st: State, id: nat, cuts: seq<int>)
    requires env.Valid() && WellFormed(st) && SplitEntry(env, st, id, cuts).ok
    ensures id in st.entries
    ensures var (te, st', n) := (st.entries[id], SplitEntry(env, st, id, cuts).st, st.nextEntry);
            && CutUp(st, st', id, env.zoneOf(te.day), |cuts| + 1, Draft)
            && (forall x :: n <= x <= n + |cuts| ==> x in st'.entries && st'.entries[x].span == Segment(te.span, cuts, x - n))
            && Floored(st', n, |cuts| + 1, te.span)
            && (LedgerDecisions.Counts(te.span) && (forall x :: n <= x <= n + |cuts| ==> WholeSpan(st'.entries[x]))
                ==> RowMinutes(st'.entries, n, |cuts| + 1) == Minutes(te.span))
  {
    hide WellFormed, SplitEntry, SplitInto, CutUp, Minutes, SumMinutes, LedgerDecisions.Counts, WholeMinutes, Tiles, Floored, Spanned, Segment, WholeSpan, RowMinutes, GoodCuts;
    SplitConserves(env, st, id, cuts);
    var (te, st') := (st.entries[id], SplitEntry(env, st, id, cuts).st);
    var pieces: seq<Interval> :|
      && |pieces| == |cuts| + 1 && Tiles(pieces, te.span.start, te.span.end)
      && (forall i :: 0 <= i < |cuts| ==> pieces[i].end == cuts[i])
      && Minutes(te.span) - |cuts| <= SumMinutes(pieces)
      && (LedgerDecisions.Counts(te.span) ==> SumMinutes(pieces) <= Minutes(te.span))
      && (LedgerDecisions.Counts(te.span) && WholeMinutes(pieces) ==> SumMinutes(pieces) == Minutes(te.span))
      && SplitInto(st, st', id, env.zoneOf(te.day), pieces);
    CutUpBySplit(st, st', id, env.zoneOf(te.day), pieces);
    CutUpMinutes(st, st', id, env.zoneOf(te.day), pieces, Draft);
    SegmentsAre(te.span, cuts, pieces);
    SegmentRows(st', st.nextEntry, te.span, cuts, pieces);
  }

  lemma SegmentRows(st: State, from: nat, span: Interval, cuts: seq<int>, pieces: seq<Interval>)
    requires |pieces| == |cuts| + 1 && Spanned(st, from, pieces) && forall i :: 0 <= i < |pieces| ==> pieces[i] == Segment(span, cuts, i)
    requires (forall x :: from <= x < from + |pieces| ==> x in st.entries) && RowMinutes(st.entries, from, |pieces|) == SumMinutes(pieces)
    requires Minutes(span) - |cuts| <= SumMinutes(pieces)
    requires LedgerDecisions.Counts(span) ==> SumMinutes(pieces) <= Minutes(span)
    requires LedgerDecisions.Counts(span) && WholeMinutes(pieces) ==> SumMinutes(pieces) == Minutes(span)
    ensures forall x :: from <= x <= from + |cuts| ==> x in st.entries && st.entries[x].span == Segment(span, cuts, x - from)
    ensures Floored(st, from, |cuts| + 1, span)
    ensures LedgerDecisions.Counts(span) && (forall x :: from <= x <= from + |cuts| ==> WholeSpan(st.entries[x])) ==>
              RowMinutes(st.entries, from, |cuts| + 1) == Minutes(span)
  {
    hide Minutes, SumMinutes, LedgerDecisions.Counts, RowMinutes, WholeMinutes, Segment, WholeSpan;
    WholeRows(st, from, pieces);
  }

  predicate WholeSpan(te: TimeEntry) {
    (te.span.end - te.span.start) % 60 == 0
  }

  lemma WholeRows(st: State, from: nat, pieces: seq<Interval>)
    requires Spanned(st, from, pieces)
    ensures (forall x :: from <= x < from + |pieces| ==> WholeSpan(st.entries[x])) ==> WholeMinutes(pieces)
  {
    if forall x :: from <= x < from + |pieces| ==> WholeSpan(st.entries[x]) {
      forall i | 0 <= i < |pieces| ensures (pieces[i].end - pieces[i].start) % 60 == 0 {
        assert WholeSpan(st.entries[from + i]);
      }
    }
  }

  lemma FlooredBy(st: State, from: nat, pieces: seq<Interval>, span: Interval)
    requires |pieces| > 0 && Spanned(st, from, pieces) && RowMinutes(st.entries, from, |pieces|) == SumMinutes(pieces)
    requires Minutes(span) - (|pieces| - 1) <= SumMinutes(pieces)
    requires LedgerDecisions.Counts(span) ==> SumMinutes(pieces) <= Minutes(span)
    ensures Floored(st, from, |pieces|, span)
  {
  }

  lemma SegmentsAre(span: Interval, cuts: seq<int>, pieces: seq<Interval>)
    requires |pieces| == |cuts| + 1 && Tiles(pieces, span.start, span.end)
    requires forall i :: 0 <= i < |cuts| ==> pieces[i].end == cuts[i]
    ensures forall i :: 0 <= i < |pieces| ==> pieces[i] == Segment(span, cuts, i)
  {
    forall i | 0 <= i < |pieces| ensures pieces[i] == Segment(span, cuts, i) {
      if i > 0 { assert pieces[i - 1].end == pieces[i].start; }
    }
  }

  // ── where the rows of a confirmation begin and end ──────────────────

  ghost predicate StartOf(spans: seq<Interval>, t: int) {
    exists i :: 0 <= i < |spans| && spans[i].start == t
  }

  ghost predicate EndOf(spans: seq<Interval>, t: int) {
    exists i :: 0 <= i < |spans| && spans[i].end == t
  }

  lemma EndsJoin(a: seq<Interval>, b: seq<Interval>)
    ensures forall t :: StartOf(a + b, t) <==> StartOf(a, t) || StartOf(b, t)
    ensures forall t :: EndOf(a + b, t) <==> EndOf(a, t) || EndOf(b, t)
  {
    var c := a + b;
    assert forall i :: 0 <= i < |a| ==> c[i] == a[i];
    assert forall i :: 0 <= i < |b| ==> c[|a| + i] == b[i];
    forall t | StartOf(b, t) ensures StartOf(c, t) {
      var i :| 0 <= i < |b| && b[i].start == t;
      assert c[|a| + i].start == t;
    }
    forall t | EndOf(b, t) ensures EndOf(c, t) {
      var i :| 0 <= i < |b| && b[i].end == t;
      assert c[|a| + i].end == t;
    }
  }

  lemma EndsOne(iv: Interval)
    ensures forall t :: StartOf([iv], t) <==> t == iv.start
    ensures forall t :: EndOf([iv], t) <==> t == iv.end
  {
    assert [iv][0] == iv;
  }

  /** A piece is bounded by the ends of the spans it was cut from and by the cuts, and by nothing else. */
  ghost predicate BoundedBy(piece: Interval, spans: seq<Interval>, cuts: seq<Interval>) {
    && (StartOf(spans, piece.start) || EndOf(cuts, piece.start))
    && (EndOf(spans, piece.end) || StartOf(cuts, piece.end))
  }

  ghost predicate Bounded(pieces: seq<Interval>, spans: seq<Interval>, cuts: seq<Interval>) {
    forall i :: 0 <= i < |pieces| ==> BoundedBy(pieces[i], spans, cuts)
  }

  lemma BoundedJoin(a: seq<Interval>, b: seq<Interval>, spans: seq<Interval>, cuts: seq<Interval>)
    requires Bounded(a, spans, cuts) && Bounded(b, spans, cuts)
    ensures Bounded(a + b, spans, cuts)
  {
    hide BoundedBy;
  }

  lemma {:induction false} CutSpansBounded(spans: seq<Interval>, cut: Interval)
    ensures Bounded(CutSpans(spans, cut), spans, [cut])
  {
    if |spans| > 0 {
      var init, last := spans[..|spans| - 1], spans[|spans| - 1];
      CutSpansBounded(init, cut);
      EndsJoin(init, [last]);
      EndsOne(last);
      EndsOne(cut);
      assert spans == init + [last];
      hide StartOf, EndOf;
      BoundedJoin(CutSpans(init, cut), CutOne(last, cut), spans, [cut]);
    }
  }

  lemma {:induction false} CutAllBounded(spans: seq<Interval>, cuts: seq<Interval>)
    ensures Bounded(CutAll(spans, cuts), spans, cuts)
  {
    if |cuts| == 0 {
      assert forall i :: 0 <= i < |spans| ==> StartOf(spans, spans[i].start) && EndOf(spans, spans[i].end);
    } else {
      var init, last := cuts[..|cuts| - 1], cuts[|cuts| - 1];
      CutAllBounded(spans, init);
      CutSpansBounded(CutAll(spans, init), last);
      BoundedPush(CutAll(spans, init), CutAll(spans, cuts), spans, init, last);
      assert cuts == init + [last];
    }
  }

  lemma BoundedPush(before: seq<Interval>, after: seq<Interval>, spans: seq<Interval>, init: seq<Interval>, last: Interval)
    requires Bounded(before, spans, init) && Bounded(after, before, [last])
    ensures Bounded(after, spans, init + [last])
  {
    EndsJoin(init, [last]);
    BoundedEnds(before, spans, init);
    hide StartOf, EndOf;
  }

  lemma BoundedEnds(pieces: seq<Interval>, spans: seq<Interval>, cuts: seq<Interval>)
    requires Bounded(pieces, spans, cuts)
    ensures forall t :: StartOf(pieces, t) ==> StartOf(spans, t) || EndOf(cuts, t)
    ensures forall t :: EndOf(pieces, t) ==> EndOf(spans, t) || StartOf(cuts, t)
  {
    forall t | StartOf(pieces, t) ensures StartOf(spans, t) || EndOf(cuts, t) {
      var i :| 0 <= i < |pieces| && pieces[i].start == t;
      assert BoundedBy(pieces[i], spans, cuts);
    }
    forall t | EndOf(pieces, t) ensures EndOf(spans, t) || StartOf(cuts, t) {
      var i :| 0 <= i < |pieces| && pieces[i].end == t;
      assert BoundedBy(pieces[i], spans, cuts);
    }
  }

  /** Every instant of the piece lies in one local day. */
  ghost predicate OneDay(zone: Zone, piece: Interval) {
    forall t :: Covers(piece, t) ==> zone.day(t) == zone.day(piece.start)
  }

  /** The piece of a remainder begins and ends where the remainder does or at a local midnight, the latter only
      under the split policy, which leaves every piece within one local day. */
  ghost predicate BrokenAt(zone: Zone, policy: Overnight, piece: Interval, rems: seq<Interval>) {
    && (policy == SplitAtMidnight ==> OneDay(zone, piece))
    && (StartOf(rems, piece.start) || (policy == SplitAtMidnight && zone.Midnight(piece.start)))
    && (EndOf(rems, piece.end) || (policy == SplitAtMidnight && zone.Midnight(piece.end)))
  }

  ghost predicate Broken(zone: Zone, policy: Overnight, pieces: seq<Interval>, rems: seq<Interval>) {
    forall i :: 0 <= i < |pieces| ==> BrokenAt(zone, policy, pieces[i], rems)
  }

  lemma WithinDay(zone: Zone, rem: Interval)
    requires zone.Valid() && rem.start < rem.end && !zone.CrossesMidnight(rem.start, rem.end)
    ensures OneDay(zone, rem)
  {
    forall t | Covers(rem, t) ensures zone.day(t) == zone.day(rem.start) {
      assert zone.day(rem.start) <= zone.day(t) <= zone.day(rem.end);
    }
  }

  lemma MidnightsBroken(zone: Zone, rem: Interval)
    requires zone.Valid() && rem.start < rem.end
    ensures Broken(zone, SplitAtMidnight, MidnightPieces(zone, rem.start, rem.end), [rem])
  {
    MidnightPiecesTile(zone, rem.start, rem.end);
    EndsOne(rem);
    hide StartOf, EndOf, MidnightPieces;
    var pieces := MidnightPieces(zone, rem.start, rem.end);
    forall i | 0 <= i < |pieces| ensures BrokenAt(zone, SplitAtMidnight, pieces[i], [rem]) {
      if i + 1 < |pieces| { assert pieces[i].end == pieces[i + 1].start && zone.Midnight(pieces[i + 1].start); }
    }
  }

  lemma OnePieceBroken(zone: Zone, rem: Interval, policy: Overnight)
    requires zone.Valid() && rem.start < rem.end
    ensures Broken(zone, policy, OnePiece(zone, rem, policy), [rem])
  {
    EndsOne(rem);
    hide StartOf, EndOf, MidnightPieces, OneDay;
    MidnightsBroken(zone, rem);
    if !zone.CrossesMidnight(rem.start, rem.end) { WithinDay(zone, rem); }
  }

  lemma BrokenJoin(zone: Zone, policy: Overnight, a: seq<Interval>, b: seq<Interval>, init: seq<Interval>, last: Interval)
    requires Broken(zone, policy, a, init) && Broken(zone, policy, b, [last])
    ensures Broken(zone, policy, a + b, init + [last])
  {
    EndsJoin(init, [last]);
    hide StartOf, EndOf, OneDay;
    var c := a + b;
    forall i | 0 <= i < |c| ensures BrokenAt(zone, policy, c[i], init + [last]) {
      if i < |a| { assert BrokenAt(zone, policy, a[i], init); } else { assert BrokenAt(zone, policy, b[i - |a|], [last]); }
    }
  }

  lemma {:induction false} RemaindersBroken(zone: Zone, rems: seq<Interval>, policy: Overnight)
    requires zone.Valid() && forall i :: 0 <= i < |rems| ==> rems[i].start < rems[i].end
    ensures Broken(zone, policy, RemainderPieces(zone, rems, policy), rems)
  {
    hide BrokenAt, OnePiece;
    if |rems| > 0 {
      var init, last := rems[..|rems| - 1], rems[|rems| - 1];
      RemaindersBroken(zone, init, policy);
      OnePieceBroken(zone, last, policy);
      BrokenJoin(zone, policy, RemainderPieces(zone, init, policy), OnePiece(zone, last, policy), init, last);
      assert rems == init + [last];
    }
  }

  // ── what a confirmation leaves ──────────────────────────────────────

  /** The new rows run through the span from one end to the other, meet at local midnights, and each lies
      within one local day. */
  ghost predicate DayByDay(st: State, from: nat, n: nat, span: Interval, zone: Zone) {
    && n > 0 && (forall x :: from <= x < from + n ==> x in st.entries && OneDay(zone, st.entries[x].span))
    && st.entries[from].span.start == span.start && st.entries[from + n - 1].span.end == span.end
    && (forall x :: from <= x < from + n - 1 ==>
          st.entries[x].span.end == st.entries[x + 1].span.start && zone.Midnight(st.entries[x].span.end))
  }

  /** The whole draft was confirmed: under the split policy as one row for each local day it reaches into, and
      otherwise in place. */
  ghost predicate ConfirmedWhole(st: State, st': State, id: nat, zone: Zone, policy: Overnight)
    requires id in st.entries
  {
    if policy == SplitAtMidnight then
      exists n: nat ::
        n >= 2 && CutUp(st, st', id, zone, n, Confirmed) && DayByDay(st', st.nextEntry, n, st.entries[id].span, zone)
        && Floored(st', st.nextEntry, n, st.entries[id].span)
    else st' == st.(entries := st.entries[id := st.entries[id].(attestation := Confirmed)])
  }

  lemma SplitDays(st: State, st': State, id: nat, zone: Zone)
    requires WellFormed(st) && id in st.entries && zone.Valid() && st.entries[id].span.start < st.entries[id].span.end
    requires var pieces := MidnightPieces(zone, st.entries[id].span.start, st.entries[id].span.end);
             |pieces| >= 2 && Replaced(st, st', id, zone, pieces)
    ensures ConfirmedWhole(st, st', id, zone, SplitAtMidnight)
  {
    hide WellFormed, MidnightPieces, Replaced, CutUp, Minutes, SumMinutes, LedgerDecisions.Counts, Floored, DayByDay, Tiles, Spanned, OneDay;
    var span := st.entries[id].span;
    var pieces := MidnightPieces(zone, span.start, span.end);
    PiecesByDay(zone, span);
    CutUpByConfirm(st, st', id, zone, pieces);
    CutUpMinutes(st, st', id, zone, pieces, Confirmed);
    FlooredBy(st', st.nextEntry, pieces, span);
    DaysApart(st', st.nextEntry, pieces, span, zone);
  }

  lemma PiecesByDay(zone: Zone, span: Interval)
    requires zone.Valid() && span.start < span.end
    ensures var pieces := MidnightPieces(zone, span.start, span.end);
            && |pieces| > 0 && Tiles(pieces, span.start, span.end)
            && (forall i :: 0 <= i < |pieces| ==> OneDay(zone, pieces[i]))
            && (forall i :: 0 < i < |pieces| ==> zone.Midnight(pieces[i].start))
            && Minutes(span) - (|pieces| - 1) <= SumMinutes(pieces)
            && (LedgerDecisions.Counts(span) ==> SumMinutes(pieces) <= Minutes(span))
  {
    hide Minutes, SumMinutes, LedgerDecisions.Counts;
    MidnightPiecesTile(zone, span.start, span.end);
    FlooredSum(MidnightPieces(zone, span.start, span.end), span.start, span.end);
    assert Interval(span.start, span.end) == span;
  }

  lemma DaysApart(st: State, from: nat, pieces: seq<Interval>, span: Interval, zone: Zone)
    requires |pieces| > 0 && Spanned(st, from, pieces) && Tiles(pieces, span.start, span.end)
    requires forall i :: 0 <= i < |pieces| ==> OneDay(zone, pieces[i])
    requires forall i :: 0 < i < |pieces| ==> zone.Midnight(pieces[i].start)
    ensures DayByDay(st, from, |pieces|, span, zone)
  {
    hide OneDay;
    forall x | from <= x < from + |pieces| - 1
      ensures st.entries[x].span.end == st.entries[x + 1].span.start && zone.Midnight(st.entries[x].span.end)
    {
      assert pieces[x - from].end == pieces[x - from + 1].start;
    }
  }

  lemma OvernightOutcome(st: State, id: nat, zone: Zone, policy: Overnight)
    requires WellFormed(st) && id in st.entries && zone.Valid() && st.entries[id].span.start <= st.entries[id].span.end
    requires ConfirmOvernight(st, id, zone, policy).ok
    ensures ConfirmedWhole(st, ConfirmOvernight(st, id, zone, policy).st, id, zone, policy)
  {
    var span := st.entries[id].span;
    var pieces := MidnightPieces(zone, span.start, span.end);
    hide WellFormed, MidnightPieces, CreatePieces, CutUp, DayByDay, Floored, Replaced;
    if policy == SplitAtMidnight {
      ReplaceStep(st, id, zone, pieces);
      SplitDays(st, ConfirmOvernight(st, id, zone, policy).st, id, zone);
    }
  }

  /** The ledger without the confirmed rows that overlap the draft. */
  function Cleared(st: State, id: nat): State
    requires id in st.entries
  {
    st.(entries := map x | x in st.entries && !Clashes(Row(x, st.entries[x]), id, st.entries[id].span) :: st.entries[x])
  }

  /** Some confirmed row that overlaps the draft begins, or ends, at the instant. */
  ghost predicate ClashStarts(st: State, id: nat, t: int)
    requires id in st.entries
  {
    exists x :: x in st.entries && Clashes(Row(x, st.entries[x]), id, st.entries[id].span) && st.entries[x].span.start == t
  }

  ghost predicate ClashEnds(st: State, id: nat, t: int)
    requires id in st.entries
  {
    exists x :: x in st.entries && Clashes(Row(x, st.entries[x]), id, st.entries[id].span) && st.entries[x].span.end == t
  }

  /** A row confirmed around overlaps begins where the draft begins, where an overlap ends, or under the split
      policy at a local midnight; likewise it ends. Under that policy it lies within one local day. */
  ghost predicate Around(st: State, id: nat, zone: Zone, policy: Overnight, iv: Interval)
    requires id in st.entries
  {
    var span := st.entries[id].span;
    && (policy == SplitAtMidnight ==> OneDay(zone, iv))
    && (iv.start == span.start || ClashEnds(st, id, iv.start) || (policy == SplitAtMidnight && zone.Midnight(iv.start)))
    && (iv.end == span.end || ClashStarts(st, id, iv.end) || (policy == SplitAtMidnight && zone.Midnight(iv.end)))
  }

  /** What an accepted confirmation leaves, by resolution and policy. */
  ghost predicate Outcome(st: State, st': State, id: nat, zone: Zone, policy: Overnight, resolution: Resolution)
    requires id in st.entries
  {
    match resolution
    case KeepTheirs => CutUp(st, st', id, zone, 0, Confirmed)
    case KeepMine => id in Cleared(st, id).entries && ConfirmedWhole(Cleared(st, id), st', id, zone, policy)
    case SplitAround =>
      exists n: nat :: CutUp(st, st', id, zone, n, Confirmed)
        && forall x :: st.nextEntry <= x < st.nextEntry + n ==> x in st'.entries && Around(st, id, zone, policy, st'.entries[x].span)
    case _ => ConfirmedWhole(st, st', id, zone, policy)
  }

  lemma ClashEdges(env: Env, st: State, id: nat)
    requires env.Valid() && id in st.entries
    ensures var cuts := SpansOf(OverlapRows(env.listRows(st.entries), id, st.entries[id].span));
            forall t :: (StartOf(cuts, t) ==> ClashStarts(st, id, t)) && (EndOf(cuts, t) ==> ClashEnds(st, id, t))
  {
    var overlaps := OverlapRows(env.listRows(st.entries), id, st.entries[id].span);
    var cuts := SpansOf(overlaps);
    OverlapsListed(env, st, id, st.entries[id].span);
    hide OverlapRows;
    forall i | 0 <= i < |cuts| ensures ClashStarts(st, id, cuts[i].start) && ClashEnds(st, id, cuts[i].end) {
      assert overlaps[i] in overlaps && cuts[i] == st.entries[overlaps[i].id].span;
    }
  }

  lemma AroundPieces(env: Env, st: State, id: nat, zone: Zone, policy: Overnight, pieces: seq<Interval>)
    requires env.Valid() && zone.Valid() && Proper(st) && id in st.entries && st.entries[id].span.start < st.entries[id].span.end
    requires var span := st.entries[id].span;
             pieces == RemainderPieces(zone, CutAll([span], SpansOf(OverlapRows(env.listRows(st.entries), id, span))), policy)
    ensures forall i :: 0 <= i < |pieces| ==> Around(st, id, zone, policy, pieces[i])
  {
    var span := st.entries[id].span;
    var cuts := SpansOf(OverlapRows(env.listRows(st.entries), id, span));
    var rems := CutAll([span], cuts);
    CutsRemain(env, st, id);
    assert Disjoint(rems);
    hide CutAll, RemainderPieces, OverlapRows, SpansOf, Remains, StartOf, EndOf, ClashStarts, ClashEnds, OneDay, Proper;
    CutAllBounded([span], cuts);
    BoundedEnds(rems, [span], cuts);
    EndsOne(span);
    ClashEdges(env, st, id);
    RemaindersBroken(zone, rems, policy);
    forall i | 0 <= i < |pieces| ensures Around(st, id, zone, policy, pieces[i]) {
      assert BrokenAt(zone, policy, pieces[i], rems);
    }
  }

  lemma AroundOutcome(env: Env, st: State, id: nat, zone: Zone, policy: Overnight)
    requires env.Valid() && WellFormed(st) && Proper(st) && id in st.entries && zone.Valid() && Contested(st, id)
    requires var overlaps := OverlapRows(env.listRows(st.entries), id, st.entries[id].span);
             ConfirmAround(st, id, zone, overlaps, policy).ok
    ensures var overlaps := OverlapRows(env.listRows(st.entries), id, st.entries[id].span);
            Outcome(st, ConfirmAround(st, id, zone, overlaps, policy).st, id, zone, policy, SplitAround)
  {
    hide WellFormed, CutAll, RemainderPieces, OverlapRows, SpansOf, Proper, Around, CreatePieces, Contested, CutUp, SetAttestation;
    var overlaps := OverlapRows(env.listRows(st.entries), id, st.entries[id].span);
    if CutAll([st.entries[id].span], SpansOf(overlaps)) == [] {
      Untouched(st, id, zone);
    } else {
      AroundCutUp(env, st, id, zone, policy);
    }
  }

  lemma AroundCutUp(env: Env, st: State, id: nat, zone: Zone, policy: Overnight)
    requires env.Valid() && WellFormed(st) && Proper(st) && id in st.entries && zone.Valid() && Contested(st, id)
    requires CutAll([st.entries[id].span], SpansOf(OverlapRows(env.listRows(st.entries), id, st.entries[id].span))) != []
    ensures var span := st.entries[id].span;
            var pieces := RemainderPieces(zone, CutAll([span], SpansOf(OverlapRows(env.listRows(st.entries), id, span))), policy);
            var st1 := CreatePieces(st, st.entries[id], zone, pieces, Confirmed);
            Outcome(st, st1.(entries := st1.entries[id := st.entries[id].(attestation := Dismissed)]), id, zone, policy, SplitAround)
  {
    hide WellFormed, CutAll, RemainderPieces, OverlapRows, SpansOf, Proper, Around, CreatePieces, Contested, Replaced, CutUp, Spanned, Clashes;
    var span := st.entries[id].span;
    var pieces := RemainderPieces(zone, CutAll([span], SpansOf(OverlapRows(env.listRows(st.entries), id, span))), policy);
    var st1 := CreatePieces(st, st.entries[id], zone, pieces, Confirmed);
    var st' := st1.(entries := st1.entries[id := st.entries[id].(attestation := Dismissed)]);
    NonEmptyDraft(env, st, id);
    ReplaceStep(st, id, zone, pieces);
    CutUpByConfirm(st, st', id, zone, pieces);
    AroundPieces(env, st, id, zone, policy, pieces);
    SpannedAround(st, st', id, zone, policy, pieces);
  }

  lemma SpannedAround(st: State, st': State, id: nat, zone: Zone, policy: Overnight, pieces: seq<Interval>)
    requires id in st.entries && Spanned(st', st.nextEntry, pieces)
    requires forall i :: 0 <= i < |pieces| ==> Around(st, id, zone, policy, pieces[i])
    ensures forall x :: st.nextEntry <= x < st.nextEntry + |pieces| ==> x in st'.entries && Around(st, id, zone, policy, st'.entries[x].span)
  {
    hide Around;
  }

  /** Nothing is left of an empty draft. */
  lemma NonEmptyDraft(env: Env, st: State, id: nat)
    requires env.Valid() && Proper(st) && id in st.entries && Contested(st, id)
    requires CutAll([st.entries[id].span], SpansOf(OverlapRows(env.listRows(st.entries), id, st.entries[id].span))) != []
    ensures st.entries[id].span.start < st.entries[id].span.end
  {
    assert st.entries[id].span.start <= st.entries[id].span.end;
    hide CutAll, OverlapRows, SpansOf, Proper, Contested;
    ContestedIff(env, st, id);
    if st.entries[id].span.start == st.entries[id].span.end { EmptyDraftGone(env, st, id); }
  }

  lemma Untouched(st: State, id: nat, zone: Zone)
    requires id in st.entries
    ensures CutUp(st, SetAttestation(st, id, Dismissed), id, zone, 0, Confirmed)
  {
  }

  lemma ClearedIs(env: Env, st: State, id: nat)
    requires env.Valid() && id in st.entries
    ensures st.(entries := st.entries - IdsOf(OverlapRows(env.listRows(st.entries), id, st.entries[id].span))) == Cleared(st, id)
  {
    hide OverlapRows, IdsOf, Clashes;
    var overlaps := OverlapRows(env.listRows(st.entries), id, st.entries[id].span);
    OverlapsListed(env, st, id, st.entries[id].span);
    IdsListed(overlaps);
    forall x | x in st.entries ensures x in IdsOf(overlaps) <==> Clashes(Row(x, st.entries[x]), id, st.entries[id].span) {
      if x in IdsOf(overlaps) { var q :| q in overlaps && q.id == x; }
    }
  }

  lemma ClearedKeeps(st: State, id: nat)
    requires id in st.entries
    ensures WellFormed(st) ==> WellFormed(Cleared(st, id))
    ensures id in Cleared(st, id).entries && Cleared(st, id).entries[id] == st.entries[id]
  {
    hide Overlaps;
  }

  /** What every accepted confirmation does to the ledger: in place, split into the rows of the days, around the
      overlapping rows, in place of them, or not at all. */
  lemma ConfirmOutcome(env: Env, st: State, id: nat, policy: Overnight, resolution: Resolution)
    requires env.Valid() && WellFormed(st) && Proper(st) && ConfirmEntry(env, st, id, policy, resolution).ok
    ensures id in st.entries
    ensures Outcome(st, ConfirmEntry(env, st, id, policy, resolution).st, id, env.zoneOf(st.entries[id].day), policy, resolution)
  {
    hide WellFormed, OverlapRows, ConfirmOvernight, ConfirmAround, IdsOf, CutUp, ConfirmedWhole, Contested, Clashes, Around;
    var te := st.entries[id];
    var zone := env.zoneOf(te.day);
    assert te.span.start <= te.span.end && zone.Valid();
    hide Proper;
    ContestedIff(env, st, id);
    var overlaps := OverlapRows(env.listRows(st.entries), id, te.span);
    if overlaps == [] || resolution == AllowParallel {
      OvernightOutcome(st, id, zone, policy);
    } else if resolution == KeepTheirs {
      Untouched(st, id, zone);
    } else if resolution == KeepMine {
      ClearedIs(env, st, id);
      ClearedKeeps(st, id);
      OvernightOutcome(Cleared(st, id), id, zone, policy);
    } else {
      AroundOutcome(env, st, id, zone, policy);
    }
  }
}
