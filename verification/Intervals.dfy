/** Half-open spans of integer instants, their point-set meaning and their measure.
    Models the interval algebra of internal/service/gaps.go and the two cutting routines of
    internal/service/time_entry_confirm.go and internal/service/review_policy.go. */
module Intervals {
  import opened Wrappers

  datatype Interval = Interval(start: int, end: int)

  predicate Covers(iv: Interval, t: int) {
    iv.start <= t < iv.end
  }

  ghost predicate CoveredBy(ivs: seq<Interval>, t: int) {
    exists i :: 0 <= i < |ivs| && Covers(ivs[i], t)
  }

  ghost predicate SameCover(a: seq<Interval>, b: seq<Interval>) {
    forall t :: CoveredBy(a, t) <==> CoveredBy(b, t)
  }

  predicate Overlaps(a: Interval, b: Interval) {
    a.start < b.end && b.start < a.end
  }

  /** Non-empty spans overlap exactly when they share an instant; touching ones do not. */
  lemma OverlapsShare(a: Interval, b: Interval)
    requires a.start < a.end && b.start < b.end
    ensures Overlaps(a, b) <==> exists t :: Covers(a, t) && Covers(b, t)
  {
    var t := if a.start < b.start then b.start else a.start;
    assert Overlaps(a, b) ==> Covers(a, t) && Covers(b, t);
  }

  predicate SortedByStart(ivs: seq<Interval>) {
    forall i, j :: 0 <= i < j < |ivs| ==> ivs[i].start <= ivs[j].start
  }

  predicate AllNonEmpty(ivs: seq<Interval>) {
    forall i :: 0 <= i < |ivs| ==> ivs[i].start < ivs[i].end
  }

  /** Non-empty spans, in order, none reaching into the next. */
  predicate Disjoint(ivs: seq<Interval>) {
    AllNonEmpty(ivs) && forall i, j :: 0 <= i < j < |ivs| ==> ivs[i].end <= ivs[j].start
  }

  /** In order with a real gap between any two: what `union` promises of its result. */
  predicate Separated(ivs: seq<Interval>) {
    forall i, j :: 0 <= i < j < |ivs| ==> ivs[i].end < ivs[j].start
  }

  function Measure(ivs: seq<Interval>): int {
    if |ivs| == 0 then 0
    else Measure(ivs[..|ivs| - 1]) + ivs[|ivs| - 1].end - ivs[|ivs| - 1].start
  }

  lemma CoveredByAppend(a: seq<Interval>, b: seq<Interval>, t: int)
    ensures CoveredBy(a + b, t) <==> CoveredBy(a, t) || CoveredBy(b, t)
  {
    if CoveredBy(a, t) {
      var i :| 0 <= i < |a| && Covers(a[i], t);
      assert (a + b)[i] == a[i];
    }
    if CoveredBy(b, t) {
      var i :| 0 <= i < |b| && Covers(b[i], t);
      assert (a + b)[|a| + i] == b[i];
    }
  }

  lemma CoveredByPush(a: seq<Interval>, iv: Interval)
    ensures forall t :: CoveredBy(a + [iv], t) <==> CoveredBy(a, t) || Covers(iv, t)
  {
    forall t ensures CoveredBy(a + [iv], t) <==> CoveredBy(a, t) || Covers(iv, t) {
      CoveredByAppend(a, [iv], t);
      assert [iv][0] == iv;
      if Covers(iv, t) { assert Covers([iv][0], t); }
    }
  }

  // ── measure is the number of covered instants ──────────────────────

  function Span(iv: Interval): set<int> {
    set t | iv.start <= t < iv.end && Covers(iv, t)
  }

  ghost function Points(ivs: seq<Interval>): (s: set<int>)
    ensures forall t :: t in s <==> CoveredBy(ivs, t)
  {
    if |ivs| == 0 then {}
    else
      var last, rest := ivs[|ivs| - 1], ivs[..|ivs| - 1];
      assert ivs == rest + [last];
      CoveredByPush(rest, last);
      Points(rest) + Span(last)
  }

  lemma {:induction false} SpanSize(iv: Interval)
    requires iv.start <= iv.end
    ensures |Span(iv)| == iv.end - iv.start
    decreases iv.end - iv.start
  {
    if iv.start < iv.end {
      var shorter := Interval(iv.start, iv.end - 1);
      SpanSize(shorter);
      assert Span(iv) == Span(shorter) + {iv.end - 1};
    } else {
      assert Span(iv) == {};
    }
  }

  lemma {:induction false} MeasureIsCount(ivs: seq<Interval>)
    requires Disjoint(ivs)
    ensures Measure(ivs) == |Points(ivs)|
  {
    if |ivs| > 0 {
      var last, rest := ivs[|ivs| - 1], ivs[..|ivs| - 1];
      MeasureIsCount(rest);
      SpanSize(last);
      assert Points(rest) !! Span(last) by {
        forall t | t in Points(rest) ensures t !in Span(last) {
          var i :| 0 <= i < |rest| && Covers(rest[i], t);
          assert ivs[i].end <= ivs[|ivs| - 1].start;
        }
      }
      assert Points(ivs) == Points(rest) + Span(last);
    }
  }

  /** Conservation: two disjoint families that together cover exactly a third have its measure. */
  lemma MeasureSplits(whole: seq<Interval>, a: seq<Interval>, b: seq<Interval>)
    requires Disjoint(whole) && Disjoint(a) && Disjoint(b)
    requires forall t :: CoveredBy(whole, t) <==> CoveredBy(a, t) || CoveredBy(b, t)
    requires forall t :: !(CoveredBy(a, t) && CoveredBy(b, t))
    ensures Measure(whole) == Measure(a) + Measure(b)
  {
    MeasureIsCount(whole);
    MeasureIsCount(a);
    MeasureIsCount(b);
    var pw, pa, pb := Points(whole), Points(a), Points(b);
    UnionSize(pw, pa, pb);
  }

  lemma UnionSize(w: set<int>, a: set<int>, b: set<int>)
    requires forall t :: t in w <==> t in a || t in b
    requires forall t :: t in a ==> t !in b
    ensures |w| == |a| + |b|
  {
    assert a * b == {} by { forall t | t in a * b ensures false {} }
    assert w == a + b by { forall t ensures t in w <==> t in a + b {} }
  }

  // ── clip ────────────────────────────────────────────────────────────

  /** The part of `iv` inside `win`, or nothing when that is empty. */
  function Clip(iv: Interval, win: Interval): (r: Option<Interval>)
    ensures r.None? <==> forall t :: !(Covers(iv, t) && Covers(win, t))
    ensures r.Some? ==> r.value.start < r.value.end
    ensures r.Some? ==> forall t :: Covers(r.value, t) <==> Covers(iv, t) && Covers(win, t)
  {
    var s := if iv.start < win.start then win.start else iv.start;
    var e := if iv.end > win.end then win.end else iv.end;
    if s < e then
      assert Covers(iv, s) && Covers(win, s);
      Some(Interval(s, e))
    else None
  }

  method ClipAll(ivs: seq<Interval>, win: Interval) returns (out: seq<Interval>)
    ensures AllNonEmpty(out)
    ensures forall t :: CoveredBy(out, t) <==> CoveredBy(ivs, t) && Covers(win, t)
  {
    out := [];
    for n := 0 to |ivs|
      invariant AllNonEmpty(out)
      invariant forall t :: CoveredBy(out, t) <==> CoveredBy(ivs[..n], t) && Covers(win, t)
    {
      assert ivs[..n + 1] == ivs[..n] + [ivs[n]];
      CoveredByPush(ivs[..n], ivs[n]);
      var c := Clip(ivs[n], win);
      if c.Some? {
        CoveredByPush(out, c.value);
        out := out + [c.value];
      }
    }
    assert ivs[..|ivs|] == ivs;
  }

  // ── union ───────────────────────────────────────────────────────────

  function Insert(sorted: seq<Interval>, iv: Interval): seq<Interval> {
    if |sorted| == 0 || sorted[|sorted| - 1].start <= iv.start then sorted + [iv]
    else Insert(sorted[..|sorted| - 1], iv) + [sorted[|sorted| - 1]]
  }

  function SortByStart(ivs: seq<Interval>): seq<Interval> {
    if |ivs| == 0 then [] else Insert(SortByStart(ivs[..|ivs| - 1]), ivs[|ivs| - 1])
  }

  predicate StartsBy(ivs: seq<Interval>, limit: int) {
    forall k :: 0 <= k < |ivs| ==> ivs[k].start <= limit
  }

  lemma {:induction false} InsertSorts(sorted: seq<Interval>, iv: Interval, limit: int)
    requires SortedByStart(sorted) && StartsBy(sorted, limit) && iv.start <= limit
    ensures SortedByStart(Insert(sorted, iv)) && StartsBy(Insert(sorted, iv), limit)
  {
    if |sorted| > 0 && sorted[|sorted| - 1].start > iv.start {
      InsertSorts(sorted[..|sorted| - 1], iv, sorted[|sorted| - 1].start);
    }
  }

  lemma {:induction false} InsertKeeps(sorted: seq<Interval>, iv: Interval)
    ensures multiset(Insert(sorted, iv)) == multiset(sorted) + multiset{iv}
  {
    if |sorted| > 0 {
      InsertKeeps(sorted[..|sorted| - 1], iv);
      assert sorted == sorted[..|sorted| - 1] + [sorted[|sorted| - 1]];
    }
  }

  lemma {:induction false} LatestStart(ivs: seq<Interval>, iv: Interval) returns (limit: int)
    ensures StartsBy(ivs, limit) && iv.start <= limit
  {
    limit := iv.start;
    if |ivs| > 0 {
      limit := LatestStart(ivs[..|ivs| - 1], iv);
      if ivs[|ivs| - 1].start > limit { limit := ivs[|ivs| - 1].start; }
    }
  }

  lemma {:induction false} SortSorts(ivs: seq<Interval>)
    ensures SortedByStart(SortByStart(ivs)) && multiset(SortByStart(ivs)) == multiset(ivs)
  {
    if |ivs| > 0 {
      SortSorts(ivs[..|ivs| - 1]);
      var limit := LatestStart(SortByStart(ivs[..|ivs| - 1]), ivs[|ivs| - 1]);
      InsertSorts(SortByStart(ivs[..|ivs| - 1]), ivs[|ivs| - 1], limit);
      InsertKeeps(SortByStart(ivs[..|ivs| - 1]), ivs[|ivs| - 1]);
      assert ivs == ivs[..|ivs| - 1] + [ivs[|ivs| - 1]];
    }
  }

  lemma SameElementsSamePoints(a: seq<Interval>, b: seq<Interval>)
    requires multiset(a) == multiset(b)
    ensures SameCover(a, b)
    ensures AllNonEmpty(a) <==> AllNonEmpty(b)
  {
    SameElements(a, b);
    SameElements(b, a);
  }

  lemma SameElements(a: seq<Interval>, b: seq<Interval>)
    requires multiset(a) == multiset(b)
    ensures forall i :: 0 <= i < |a| ==> exists j :: 0 <= j < |b| && b[j] == a[i]
    ensures forall t :: CoveredBy(a, t) ==> CoveredBy(b, t)
  {
    forall i | 0 <= i < |a| ensures exists j :: 0 <= j < |b| && b[j] == a[i] {
      assert a[i] in multiset(a);
      assert a[i] in multiset(b);
      assert a[i] in b;
    }
  }

  method SortInPlace(ivs: array<Interval>)
    modifies ivs
    ensures ivs[..] == SortByStart(old(ivs[..]))
  {
    var sorted := SortByStart(ivs[..]);
    SortSorts(ivs[..]);
    assert |sorted| == |multiset(sorted)| == |multiset(ivs[..])| == ivs.Length;
    forall i | 0 <= i < ivs.Length { ivs[i] := sorted[i]; }
    assert ivs[..] == sorted;
  }

  /** Sorts its argument in place, then merges overlapping and touching spans. The result covers
      exactly the same instants, for any input, and is in separated normal form. */
  method Union(ivs: array<Interval>) returns (out: seq<Interval>)
    modifies ivs
    ensures ivs[..] == SortByStart(old(ivs[..]))
    ensures Separated(out)
    ensures AllNonEmpty(old(ivs[..])) ==> AllNonEmpty(out)
    ensures SameCover(out, old(ivs[..]))
  {
    SortSorts(ivs[..]);
    SameElementsSamePoints(SortByStart(ivs[..]), ivs[..]);
    SortInPlace(ivs);
    out := MergeSorted(ivs);
  }

  method MergeSorted(ivs: array<Interval>) returns (out: seq<Interval>)
    requires SortedByStart(ivs[..])
    ensures Separated(out)
    ensures AllNonEmpty(ivs[..]) ==> AllNonEmpty(out)
    ensures SameCover(out, ivs[..])
  {
    if ivs.Length == 0 {
      return [];
    }
    out := [ivs[0]];
    ghost var sorted := ivs[..];
    assert sorted[..1] == [sorted[0]];
    for n := 1 to ivs.Length
      invariant |out| > 0
      invariant Separated(out)
      invariant AllNonEmpty(sorted) ==> AllNonEmpty(out)
      invariant out[|out| - 1].start <= sorted[n - 1].start
      invariant SameCover(out, sorted[..n])
    {
      var iv := ivs[n];
      var last := out[|out| - 1];
      ghost var before := out;
      assert iv == sorted[n] && sorted[n - 1].start <= iv.start;
      if iv.start <= last.end {
        if iv.end > last.end {
          out := out[|out| - 1 := Interval(last.start, iv.end)];
        }
      } else {
        out := out + [iv];
      }
      MergeStep(before, sorted[..n], iv, out);
      assert sorted[..n + 1] == sorted[..n] + [iv];
    }
    assert sorted[..ivs.Length] == sorted;
  }

  /** One round of the merge adds exactly the points of the merged span. */
  lemma MergeStep(before: seq<Interval>, done: seq<Interval>, iv: Interval, after: seq<Interval>)
    requires |before| > 0 && SameCover(before, done)
    requires var last := before[|before| - 1];
             && last.start <= iv.start
             && (after == if iv.start <= last.end
                          then if iv.end > last.end then before[|before| - 1 := Interval(last.start, iv.end)] else before
                          else before + [iv])
    ensures SameCover(after, done + [iv])
  {
    var m := |before| - 1;
    var last := before[m];
    CoveredByPush(done, iv);
    forall t ensures CoveredBy(after, t) <==> CoveredBy(done + [iv], t) {
      if CoveredBy(before, t) {
        var i :| 0 <= i < |before| && Covers(before[i], t);
        assert Covers(after[i], t);
      }
      if Covers(iv, t) {
        assert Covers(after[m], t) || (m + 1 < |after| && Covers(after[m + 1], t));
      }
      if CoveredBy(after, t) {
        var i :| 0 <= i < |after| && Covers(after[i], t);
        assert Covers(iv, t) || Covers(before[i], t);
      }
    }
  }

  /** A separated family is determined by the instants it covers, so `Union` is independent of the
      order and of the cutting of its input. */
  lemma {:induction false} NormalFormUnique(a: seq<Interval>, b: seq<Interval>)
    requires Separated(a) && AllNonEmpty(a)
    requires Separated(b) && AllNonEmpty(b)
    requires SameCover(a, b)
    ensures a == b
    decreases |a|
  {
    if |a| == 0 || |b| == 0 {
      if |a| > 0 { FirstCovered(a); }
      if |b| > 0 { FirstCovered(b); }
    } else {
      LastSpan(a, b);
      LastSpan(b, a);
      DropBothLasts(a, b);
      NormalFormUnique(a[..|a| - 1], b[..|b| - 1]);
      assert a == a[..|a| - 1] + [a[|a| - 1]];
      assert b == b[..|b| - 1] + [b[|b| - 1]];
    }
  }

  lemma FirstCovered(a: seq<Interval>)
    requires AllNonEmpty(a) && |a| > 0
    ensures CoveredBy(a, a[0].start)
  {
    assert Covers(a[0], a[0].start);
  }

  lemma DropBothLasts(a: seq<Interval>, b: seq<Interval>)
    requires Separated(a) && |a| > 0 && Separated(b) && |b| > 0
    requires a[|a| - 1].start == b[|b| - 1].start
    requires SameCover(a, b)
    ensures SameCover(a[..|a| - 1], b[..|b| - 1])
  {
    var a', b' := a[..|a| - 1], b[..|b| - 1];
    forall t ensures CoveredBy(a', t) <==> CoveredBy(b', t) {
      DropLastAt(a, t);
      DropLastAt(b, t);
    }
  }

  lemma DropLastAt(a: seq<Interval>, t: int)
    requires Separated(a) && |a| > 0
    ensures CoveredBy(a[..|a| - 1], t) <==> CoveredBy(a, t) && t < a[|a| - 1].start
  {
    var m := |a| - 1;
    if CoveredBy(a[..m], t) {
      var i :| 0 <= i < m && Covers(a[..m][i], t);
      assert Covers(a[i], t) && a[i].end < a[m].start;
    }
    if CoveredBy(a, t) && t < a[m].start {
      var i :| 0 <= i < |a| && Covers(a[i], t);
      assert a[..m][i] == a[i];
    }
  }

  /** The last span of `a` has the end of `b`'s last span and starts no earlier. */
  lemma LastSpan(a: seq<Interval>, b: seq<Interval>)
    requires Separated(a) && AllNonEmpty(a) && |a| > 0
    requires Separated(b) && AllNonEmpty(b) && |b| > 0
    requires SameCover(a, b)
    ensures a[|a| - 1].end <= b[|b| - 1].end
    ensures b[|b| - 1].start >= a[|a| - 1].start
  {
    var x, y := a[|a| - 1], b[|b| - 1];
    assert Covers(a[|a| - 1], x.end - 1);
    assert CoveredBy(b, x.end - 1);
    assert x.end <= y.end;
    NoneJustBeforeLast(a);
    assert !Covers(b[|b| - 1], x.start - 1);
  }

  lemma NoneJustBeforeLast(a: seq<Interval>)
    requires Separated(a) && |a| > 0
    ensures !CoveredBy(a, a[|a| - 1].start - 1)
  {
  }

  // ── subtract ────────────────────────────────────────────────────────

  /** `win` minus non-empty spans sorted by start: exactly the uncovered instants, in order. */
  method Subtract(win: Interval, occupied: seq<Interval>) returns (out: seq<Interval>)
    requires SortedByStart(occupied) && AllNonEmpty(occupied)
    ensures Disjoint(out)
    ensures forall i :: 0 <= i < |out| ==> win.start <= out[i].start && out[i].end <= win.end
    ensures forall t :: CoveredBy(out, t) <==> Covers(win, t) && !CoveredBy(occupied, t)
  {
    out := [];
    var cursor := win.start;
    for n := 0 to |occupied|
      invariant win.start <= cursor
      invariant Disjoint(out)
      invariant forall i :: 0 <= i < |out| ==> win.start <= out[i].start && out[i].end <= cursor && out[i].end <= win.end
      invariant forall t :: CoveredBy(out, t) <==> win.start <= t < cursor && t < win.end && !CoveredBy(occupied[..n], t)
      invariant forall t :: CoveredBy(occupied[..n], t) && t < win.end ==> t < cursor
      invariant forall i :: 0 <= i < |out| ==> n > 0 && out[i].end <= occupied[n - 1].start
    {
      var o := occupied[n];
      assert occupied[..n + 1] == occupied[..n] + [o];
      CoveredByPush(occupied[..n], o);
      if !(o.end < win.start || o.start > win.end) {
        if o.start > cursor {
          CoveredByPush(out, Interval(cursor, o.start));
          out := out + [Interval(cursor, o.start)];
        }
        if o.end > cursor {
          cursor := o.end;
        }
      }
    }
    assert occupied[..|occupied|] == occupied;
    if cursor < win.end {
      CoveredByPush(out, Interval(cursor, win.end));
      out := out + [Interval(cursor, win.end)];
    }
  }
}
