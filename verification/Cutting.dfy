/** Cutting spans: `subtractInterval` and `splitAtLocalMidnights` of
    internal/service/time_entry_confirm.go, and `splitAround` of internal/service/review_policy.go. */
module Cutting {
  import opened Wrappers
  import opened Intervals

  /** Consecutive non-empty pieces that run from `lo` to `hi` without a hole. */
  predicate Tiles(pieces: seq<Interval>, lo: int, hi: int) {
    && AllNonEmpty(pieces)
    && (forall i :: 0 <= i < |pieces| - 1 ==> pieces[i].end == pieces[i + 1].start)
    && if |pieces| == 0 then lo == hi else pieces[0].start == lo && pieces[|pieces| - 1].end == hi
  }

  // ── subtractInterval ────────────────────────────────────────────────

  function CutOne(sp: Interval, cut: Interval): seq<Interval> {
    if cut.start >= sp.end || cut.end <= sp.start then [sp]
    else
      (if sp.start < cut.start then [Interval(sp.start, cut.start)] else [])
      + (if cut.end < sp.end then [Interval(cut.end, sp.end)] else [])
  }

  function CutSpans(spans: seq<Interval>, cut: Interval): seq<Interval> {
    if |spans| == 0 then []
    else CutSpans(spans[..|spans| - 1], cut) + CutOne(spans[|spans| - 1], cut)
  }

  function CutAll(spans: seq<Interval>, cuts: seq<Interval>): seq<Interval> {
    if |cuts| == 0 then spans
    else CutSpans(CutAll(spans, cuts[..|cuts| - 1]), cuts[|cuts| - 1])
  }

  method SubtractInterval(spans: seq<Interval>, cutStart: int, cutEnd: int) returns (out: seq<Interval>)
    ensures out == CutSpans(spans, Interval(cutStart, cutEnd))
  {
    out := [];
    for n := 0 to |spans|
      invariant out == CutSpans(spans[..n], Interval(cutStart, cutEnd))
    {
      assert spans[..n + 1][..n] == spans[..n];
      var sp := spans[n];
      if !(cutStart < sp.end) || !(cutEnd > sp.start) {
        out := out + [sp];
        continue;
      }
      if sp.start < cutStart {
        out := out + [Interval(sp.start, cutStart)];
      }
      if cutEnd < sp.end {
        out := out + [Interval(cutEnd, sp.end)];
      }
    }
    assert spans[..|spans|] == spans;
  }

  lemma CutOneCovers(sp: Interval, cut: Interval, t: int)
    ensures CoveredBy(CutOne(sp, cut), t) <==> Covers(sp, t) && !Covers(cut, t)
  {
    var out := CutOne(sp, cut);
    if Covers(sp, t) && !Covers(cut, t) {
      assert Covers(out[0], t) || (|out| > 1 && Covers(out[1], t));
    }
  }

  /** Subtracting a span removes exactly its instants, whatever the spans. */
  lemma {:induction false} CutSpansCovers(spans: seq<Interval>, cut: Interval, t: int)
    ensures CoveredBy(CutSpans(spans, cut), t) <==> CoveredBy(spans, t) && !Covers(cut, t)
  {
    if |spans| > 0 {
      var init, last := spans[..|spans| - 1], spans[|spans| - 1];
      CutSpansCovers(init, cut, t);
      CutOneCovers(last, cut, t);
      CoveredByAppend(CutSpans(init, cut), CutOne(last, cut), t);
      assert spans == init + [last];
      CoveredByPush(init, last);
    }
  }

  lemma {:induction false} CutAllCovers(spans: seq<Interval>, cuts: seq<Interval>, t: int)
    ensures CoveredBy(CutAll(spans, cuts), t) <==> CoveredBy(spans, t) && !CoveredBy(cuts, t)
  {
    if |cuts| > 0 {
      var init, last := cuts[..|cuts| - 1], cuts[|cuts| - 1];
      CutAllCovers(spans, init, t);
      CutSpansCovers(CutAll(spans, init), last, t);
      assert cuts == init + [last];
      CoveredByPush(init, last);
    }
  }

  predicate Inside(ivs: seq<Interval>, lo: int, hi: int) {
    forall i :: 0 <= i < |ivs| ==> lo <= ivs[i].start && ivs[i].end <= hi
  }

  lemma {:induction false} CutSpansDisjoint(spans: seq<Interval>, cut: Interval, lo: int, hi: int)
    requires cut.start <= cut.end && Disjoint(spans) && Inside(spans, lo, hi)
    ensures Disjoint(CutSpans(spans, cut)) && Inside(CutSpans(spans, cut), lo, hi)
  {
    if |spans| > 0 {
      var init, last := spans[..|spans| - 1], spans[|spans| - 1];
      assert Inside(init, lo, last.start);
      assert Disjoint(init);
      CutSpansDisjoint(init, cut, lo, last.start);
      CutOneInside(last, cut);
      DisjointAppend(CutSpans(init, cut), CutOne(last, cut), lo, last.start, hi);
    }
  }

  lemma CutOneInside(sp: Interval, cut: Interval)
    requires cut.start <= cut.end && sp.start < sp.end
    ensures Disjoint(CutOne(sp, cut)) && Inside(CutOne(sp, cut), sp.start, sp.end)
  {
  }

  lemma DisjointAppend(a: seq<Interval>, b: seq<Interval>, lo: int, mid: int, hi: int)
    requires Disjoint(a) && Inside(a, lo, mid)
    requires Disjoint(b) && Inside(b, mid, hi)
    requires lo <= mid <= hi
    ensures Disjoint(a + b) && Inside(a + b, lo, hi)
  {
  }

  /** The pieces left by proper cuts stay non-empty, disjoint, ordered and inside the original. */
  lemma {:induction false} CutAllDisjoint(spans: seq<Interval>, cuts: seq<Interval>, lo: int, hi: int)
    requires forall i :: 0 <= i < |cuts| ==> cuts[i].start <= cuts[i].end
    requires Disjoint(spans) && Inside(spans, lo, hi)
    ensures Disjoint(CutAll(spans, cuts)) && Inside(CutAll(spans, cuts), lo, hi)
  {
    if |cuts| > 0 {
      CutAllDisjoint(spans, cuts[..|cuts| - 1], lo, hi);
      CutSpansDisjoint(CutAll(spans, cuts[..|cuts| - 1]), cuts[|cuts| - 1], lo, hi);
    }
  }

  // ── splitAround ─────────────────────────────────────────────────────

  datatype Around = Around(before: Option<Interval>, overlap: Option<Interval>, after: Option<Interval>)

  function SplitAround(gap: Interval, event: Interval): Around {
    if !(gap.start < gap.end) then Around(None, None, None)
    else if gap.end < event.start || !(gap.start < event.end) then Around(Some(gap), None, None)
    else if event.start <= gap.start then
      if gap.end <= event.end then Around(None, Some(gap), None)
      else Around(None, Some(Interval(gap.start, event.end)), Some(Interval(event.end, gap.end)))
    else if gap.end <= event.end then
      Around(Some(Interval(gap.start, event.start)), Some(Interval(event.start, gap.end)), None)
    else
      Around(Some(Interval(gap.start, event.start)), Some(Interval(event.start, event.end)), Some(Interval(event.end, gap.end)))
  }

  predicate OptCovers(o: Option<Interval>, t: int) {
    o.Some? && Covers(o.value, t)
  }

  /** For a proper event, the three parts partition the gap, and the outer two miss the event. */
  lemma SplitAroundPartitions(gap: Interval, event: Interval, t: int)
    requires event.start <= event.end
    ensures var a := SplitAround(gap, event);
            && (OptCovers(a.before, t) || OptCovers(a.after, t) <==> Covers(gap, t) && !Covers(event, t))
            && (OptCovers(a.overlap, t) <==> Covers(gap, t) && Covers(event, t))
            && !(OptCovers(a.before, t) && OptCovers(a.after, t))
  {
  }

  /** The outer parts are never empty; the overlap part is empty exactly when the event is empty or
      the gap ends where it starts, although the source says every reported part is non-empty. */
  lemma SplitAroundParts(gap: Interval, event: Interval)
    requires event.start <= event.end
    ensures var a := SplitAround(gap, event);
            && (a.before.Some? ==> a.before.value.start < a.before.value.end)
            && (a.after.Some? ==> a.after.value.start < a.after.value.end)
            && (a.overlap.Some? ==>
                  (a.overlap.value.start == a.overlap.value.end
                   <==> (event.start == event.end || gap.end == event.start)))
            && (a.overlap.Some? <==>
                  gap.start < gap.end && event.start <= gap.end && gap.start < event.end)
  {
  }

  lemma SplitAroundTouching()
    ensures SplitAround(Interval(0, 5), Interval(5, 9))
            == Around(Some(Interval(0, 5)), Some(Interval(5, 5)), None)
  {
  }

  // ── local midnights ─────────────────────────────────────────────────

  /** A time zone: the local calendar day of an instant, and the next local midnight after it. */
  datatype Zone = Zone(day: int -> int, nextMidnight: int -> int) {
    /** The stated assumption on a zone: the next midnight is strictly later, it is where the local
        day changes, and days never run backwards. */
    ghost predicate Valid() {
      && (forall t {:trigger nextMidnight(t)} :: t < nextMidnight(t))
      && (forall t, u {:trigger nextMidnight(t), day(u)} :: t <= u < nextMidnight(t) ==> day(u) == day(t))
      && (forall t {:trigger nextMidnight(t)} :: day(t) < day(nextMidnight(t)))
      && (forall t, u {:trigger day(t), day(u)} :: t <= u ==> day(t) <= day(u))
    }

    /** The first instant of a local day. */
    predicate Midnight(m: int) {
      day(m - 1) != day(m)
    }

    predicate CrossesMidnight(start: int, end: int) {
      day(start) != day(end)
    }
  }

  ghost function MidnightPieces(zone: Zone, start: int, end: int): seq<Interval>
    requires zone.Valid()
    decreases end - start
  {
    if start >= end then []
    else
      var m := zone.nextMidnight(start);
      if m > end then [Interval(start, end)]
      else [Interval(start, m)] + MidnightPieces(zone, m, end)
  }

  method SplitAtLocalMidnights(zone: Zone, localStart: int, localEnd: int) returns (out: seq<Interval>)
    requires zone.Valid()
    ensures out == MidnightPieces(zone, localStart, localEnd)
  {
    out := [];
    var cur := localStart;
    while cur < localEnd
      invariant cur <= localEnd || cur == localStart
      invariant out + MidnightPieces(zone, cur, localEnd) == MidnightPieces(zone, localStart, localEnd)
      decreases localEnd - cur
    {
      var segEnd := zone.nextMidnight(cur);
      if segEnd > localEnd {
        segEnd := localEnd;
      }
      ghost var before := out;
      if segEnd > cur {
        out := out + [Interval(cur, segEnd)];
      }
      assert MidnightPieces(zone, localEnd, localEnd) == [];
      assert MidnightPieces(zone, cur, localEnd) == [Interval(cur, segEnd)] + MidnightPieces(zone, segEnd, localEnd);
      cur := segEnd;
    }
  }

  /** The pieces tile the span, and each lies inside one local day. */
  lemma {:induction false} MidnightPiecesTile(zone: Zone, start: int, end: int)
    requires zone.Valid() && start <= end
    ensures var p := MidnightPieces(zone, start, end);
            && Tiles(p, start, end)
            && (forall i, t :: 0 <= i < |p| && Covers(p[i], t) ==> zone.day(t) == zone.day(p[i].start))
            && (forall i :: 0 < i < |p| ==> zone.Midnight(p[i].start))
    decreases end - start
  {
    if start < end {
      var m := zone.nextMidnight(start);
      if m <= end {
        MidnightPiecesTile(zone, m, end);
        assert zone.day(m - 1) == zone.day(start);
      }
    }
  }

  /** At least two pieces come out exactly when a local midnight lies strictly inside the span:
      this is when confirming with the split policy is accepted. */
  lemma {:induction false} SplitIffMidnightInside(zone: Zone, start: int, end: int)
    requires zone.Valid()
    ensures |MidnightPieces(zone, start, end)| >= 2 <==> exists m :: start < m < end && zone.Midnight(m)
  {
    if start < end {
      var m := zone.nextMidnight(start);
      if m < end {
        assert zone.day(m - 1) == zone.day(start);
        assert zone.Midnight(m);
        assert MidnightPieces(zone, m, end) != [];
      } else {
        forall x | start < x < end ensures !zone.Midnight(x) {
          assert zone.day(x - 1) == zone.day(start) && zone.day(x) == zone.day(start);
        }
        assert MidnightPieces(zone, end, end) == [];
      }
    }
  }

  /** The overnight test is weaker: a span that ends exactly at a midnight is treated as overnight
      although no midnight lies strictly inside it. */
  lemma CrossesIffMidnightReached(zone: Zone, start: int, end: int)
    requires zone.Valid() && start < end
    ensures zone.CrossesMidnight(start, end) <==> exists m :: start < m <= end && zone.Midnight(m)
  {
    var m := zone.nextMidnight(start);
    if m <= end {
      assert zone.day(m - 1) == zone.day(start);
      assert zone.Midnight(m);
      assert zone.day(m) <= zone.day(end);
    } else {
      forall x | start < x <= end ensures !zone.Midnight(x) {
        assert zone.day(x - 1) == zone.day(start) && zone.day(x) == zone.day(start);
      }
    }
  }
}
