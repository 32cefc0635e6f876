/** What confirming, splitting and rejecting drafts guarantees, whatever the ledger holds. */
module LedgerConfirm {
  import opened Wrappers
  import opened Intervals
  import opened Cutting
  import opened LedgerTypes
  import opened LedgerSpec
  import opened LedgerSteps
  import opened LedgerUser

  // ── creating pieces ─────────────────────────────────────────────────

  /** `pieces` became rows with consecutive fresh ids, and no other row changed. */
  ghost predicate Created(st: State, st': State, te: TimeEntry, zone: Zone, pieces: seq<Interval>, a: Attestation) {
    && st' == st.(entries := st'.entries, nextEntry := st.nextEntry + |pieces|)
    && (forall x :: x in st'.entries <==> x in st.entries || st.nextEntry <= x < st.nextEntry + |pieces|)
    && (forall x :: x in st.entries ==> st'.entries[x] == st.entries[x])
    && (forall x :: st.nextEntry <= x < st.nextEntry + |pieces| ==>
          st'.entries[x] == PieceOf(te, zone, pieces[x - st.nextEntry], a))
  }

  lemma {:induction false} CreatePiecesStep(st: State, te: TimeEntry, zone: Zone, pieces: seq<Interval>, a: Attestation)
    requires WellFormed(st)
    ensures Created(st, CreatePieces(st, te, zone, pieces, a), te, zone, pieces, a)
  {
    if |pieces| > 0 {
      CreatePiecesStep(st, te, zone, pieces[..|pieces| - 1], a);
    }
  }

  lemma {:induction false} OverlapRowsExact(rows: seq<Row>, id: nat, span: Interval)
    ensures forall r :: r in OverlapRows(rows, id, span) <==> r in rows && Clashes(r, id, span)
  {
    if |rows| > 0 {
      OverlapRowsExact(rows[..|rows| - 1], id, span);
      assert rows == rows[..|rows| - 1] + [rows[|rows| - 1]];
    }
  }

  /** The rows a confirmation reports as overlapping are exactly the other confirmed rows that do. */
  lemma OverlapsListed(env: Env, st: State, id: nat, span: Interval)
    requires env.Valid()
    ensures var overlaps := OverlapRows(env.listRows(st.entries), id, span);
            && (forall r :: r in overlaps ==> r.id in st.entries && st.entries[r.id] == r.te && Clashes(r, id, span))
            && (forall x :: x in st.entries && Clashes(Row(x, st.entries[x]), id, span) ==> Row(x, st.entries[x]) in overlaps)
  {
    assert Lists(env.listRows(st.entries), st.entries);
    OverlapRowsExact(env.listRows(st.entries), id, span);
  }

  // ── no overlapping pair is added ────────────────────────────────────

  /** Two different confirmed rows whose spans overlap. */
  predicate Clash(st: State, x: nat, y: nat) {
    && x in st.entries && y in st.entries && x != y
    && st.entries[x].attestation == Confirmed && st.entries[y].attestation == Confirmed
    && Overlaps(st.entries[x].span, st.entries[y].span)
  }

  ghost predicate Proper(st: State) {
    forall x :: x in st.entries ==> st.entries[x].span.start <= st.entries[x].span.end
  }

  /** No other confirmed row overlaps the span. */
  ghost predicate Free(st: State, id: nat, iv: Interval) {
    forall x :: x in st.entries && x != id && st.entries[x].attestation == Confirmed ==> !Overlaps(iv, st.entries[x].span)
  }

  ghost predicate NoNewClash(st: State, st': State) {
    forall x, y :: Clash(st', x, y) ==> Clash(st, x, y)
  }

  lemma InPlaceClear(st: State, id: nat)
    requires id in st.entries && Free(st, id, st.entries[id].span)
    ensures NoNewClash(st, SetAttestation(st, id, Confirmed))
  {
  }

  /** The draft was dismissed in favour of confirmed pieces with fresh ids; no other row changed. */
  ghost predicate Replaced(st: State, st': State, id: nat, zone: Zone, pieces: seq<Interval>)
    requires id in st.entries
  {
    && st' == st.(entries := st'.entries, nextEntry := st.nextEntry + |pieces|)
    && (forall x :: x in st'.entries <==> x in st.entries || st.nextEntry <= x < st.nextEntry + |pieces|)
    && (forall x :: x in st.entries ==> st'.entries[x] == if x == id then st.entries[id].(attestation := Dismissed) else st.entries[x])
    && (forall x :: st.nextEntry <= x < st.nextEntry + |pieces| ==>
          st'.entries[x] == PieceOf(st.entries[id], zone, pieces[x - st.nextEntry], Confirmed))
  }

  lemma ReplaceStep(st: State, id: nat, zone: Zone, pieces: seq<Interval>)
    requires WellFormed(st) && id in st.entries
    ensures var st1 := CreatePieces(st, st.entries[id], zone, pieces, Confirmed);
            Replaced(st, st1.(entries := st1.entries[id := st.entries[id].(attestation := Dismissed)]), id, zone, pieces)
  {
    assert id < st.nextEntry;
    CreatePiecesStep(st, st.entries[id], zone, pieces, Confirmed);
    hide WellFormed, CreatePieces, PieceOf;
  }

  lemma ReplacedClear(st: State, st': State, id: nat, zone: Zone, pieces: seq<Interval>)
    requires WellFormed(st) && id in st.entries && Disjoint(pieces) && Replaced(st, st', id, zone, pieces)
    requires forall i :: 0 <= i < |pieces| ==> Free(st, id, pieces[i])
    ensures NoNewClash(st, st')
  {
    forall x: nat, y: nat ensures Clash(st', x, y) ==> Clash(st, x, y) {
      var n := st.nextEntry;
      if n <= x < n + |pieces| && x != id {
        assert Free(st, id, pieces[x - n]);
      }
      if n <= y < n + |pieces| && y != id {
        assert Free(st, id, pieces[y - n]);
      }
    }
  }

  lemma FreeInside(st: State, id: nat, whole: Interval, part: Interval)
    requires Free(st, id, whole) && whole.start <= part.start && part.end <= whole.end
    ensures Free(st, id, part)
  {
  }

  lemma TilesDisjoint(pieces: seq<Interval>, lo: int, hi: int)
    requires Tiles(pieces, lo, hi)
    ensures Disjoint(pieces) && Inside(pieces, lo, hi)
  {
    TilesOrdered(pieces, lo, hi);
  }

  lemma {:induction false} TilesOrdered(pieces: seq<Interval>, lo: int, hi: int)
    requires Tiles(pieces, lo, hi)
    ensures lo <= hi && Disjoint(pieces) && Inside(pieces, lo, hi)
  {
    if |pieces| > 1 {
      var init, last := pieces[..|pieces| - 1], pieces[|pieces| - 1];
      TilesOrdered(init, lo, last.start);
      assert pieces == init + [last];
    }
  }

  lemma OvernightClear(st: State, id: nat, zone: Zone, policy: Overnight)
    requires WellFormed(st) && Proper(st) && id in st.entries && zone.Valid() && Free(st, id, st.entries[id].span)
    ensures NoNewClash(st, ConfirmOvernight(st, id, zone, policy).st)
  {
    var te := st.entries[id];
    InPlaceClear(st, id);
    if zone.CrossesMidnight(te.span.start, te.span.end) && policy == SplitAtMidnight {
      var pieces := MidnightPieces(zone, te.span.start, te.span.end);
      MidnightPiecesTile(zone, te.span.start, te.span.end);
      TilesDisjoint(pieces, te.span.start, te.span.end);
      ReplaceStep(st, id, zone, pieces);
      hide WellFormed, Disjoint, Tiles, Free, MidnightPieces, NoNewClash;
      if |pieces| >= 2 {
        forall i | 0 <= i < |pieces| ensures Free(st, id, pieces[i]) {
          FreeInside(st, id, te.span, pieces[i]);
        }
        var st' := ConfirmOvernight(st, id, zone, policy).st;
        assert Replaced(st, st', id, zone, pieces);
        ReplacedClear(st, st', id, zone, pieces);
      } else {
        assert NoNewClash(st, st) by { SelfClear(st); }
      }
    }
  }

  lemma SelfClear(st: State)
    ensures NoNewClash(st, st)
  {
  }

  // ── confirming around overlaps ──────────────────────────────────────

  lemma {:induction false} RemainderParts(zone: Zone, rems: seq<Interval>, policy: Overnight)
    requires zone.Valid() && Disjoint(rems)
    ensures Parts(RemainderPieces(zone, rems, policy), rems)
  {
    if |rems| > 0 {
      var init, rem := rems[..|rems| - 1], rems[|rems| - 1];
      RemainderParts(zone, init, policy);
      OnePieceCovers(zone, rem, policy);
      PartsPush(RemainderPieces(zone, init, policy), OnePiece(zone, rem, policy), init, rem);
      assert rems == init + [rem];
    }
  }

  lemma PartsPush(before: seq<Interval>, after: seq<Interval>, init: seq<Interval>, rem: Interval)
    requires Parts(before, init) && Inside(after, rem.start, rem.end)
    ensures Parts(before + after, init + [rem])
  {
    var (pieces, wholes) := (before + after, init + [rem]);
    forall i | 0 <= i < |pieces| ensures PartOf(pieces[i], wholes) {
      if i < |before| {
        assert PartOf(before[i], init);
        var j :| 0 <= j < |init| && Within(before[i], init[j]);
        assert Within(pieces[i], wholes[j]);
      } else {
        assert pieces[i] == after[i - |before|] && Within(pieces[i], wholes[|init|]);
      }
    }
  }

  lemma {:induction false} RemainderDisjoint(zone: Zone, rems: seq<Interval>, policy: Overnight, lo: int, hi: int)
    requires zone.Valid() && Disjoint(rems) && Inside(rems, lo, hi)
    ensures Disjoint(RemainderPieces(zone, rems, policy)) && Inside(RemainderPieces(zone, rems, policy), lo, hi)
    ensures SameCover(RemainderPieces(zone, rems, policy), rems)
  {
    if |rems| > 0 {
      var init, rem := rems[..|rems| - 1], rems[|rems| - 1];
      assert Inside(init, lo, rem.start);
      RemainderDisjoint(zone, init, policy, lo, rem.start);
      var before, after := RemainderPieces(zone, init, policy), OnePiece(zone, rem, policy);
      OnePieceCovers(zone, rem, policy);
      DisjointAppend(before, after, lo, rem.start, hi);
      CoverPush(before, after, init, rem);
      assert rems == init + [rem];
    }
  }

  lemma CoverPush(before: seq<Interval>, after: seq<Interval>, init: seq<Interval>, rem: Interval)
    requires SameCover(before, init) && forall t :: CoveredBy(after, t) <==> Covers(rem, t)
    ensures SameCover(before + after, init + [rem])
  {
    CoveredByPush(init, rem);
    forall t ensures CoveredBy(before + after, t) <==> CoveredBy(init + [rem], t) {
      CoveredByAppend(before, after, t);
    }
  }

  predicate Within(part: Interval, whole: Interval) {
    whole.start <= part.start && part.end <= whole.end
  }

  lemma OnePieceCovers(zone: Zone, rem: Interval, policy: Overnight)
    requires zone.Valid() && rem.start < rem.end
    ensures var p := OnePiece(zone, rem, policy);
            && Disjoint(p) && Inside(p, rem.start, rem.end)
            && (forall t :: CoveredBy(p, t) <==> Covers(rem, t))
  {
    MidnightPiecesTile(zone, rem.start, rem.end);
    TilesDisjoint(MidnightPieces(zone, rem.start, rem.end), rem.start, rem.end);
    TilesCover(MidnightPieces(zone, rem.start, rem.end), rem.start, rem.end);
    assert [rem][0] == rem;
    forall t ensures CoveredBy([rem], t) <==> Covers(rem, t) {
      if Covers(rem, t) { assert Covers([rem][0], t); }
    }
  }

  lemma {:induction false} TilesCover(pieces: seq<Interval>, lo: int, hi: int)
    requires Tiles(pieces, lo, hi)
    ensures forall t :: CoveredBy(pieces, t) <==> lo <= t < hi
  {
    if |pieces| == 1 {
      forall t | lo <= t < hi ensures CoveredBy(pieces, t) { assert Covers(pieces[0], t); }
    } else if |pieces| > 1 {
      var init, last := pieces[..|pieces| - 1], pieces[|pieces| - 1];
      TilesOrdered(init, lo, last.start);
      TilesCover(init, lo, last.start);
      assert pieces == init + [last];
      CoveredByPush(init, last);
    }
  }

  /** What remains of a draft span around confirmed rows: disjoint pieces clear of every one of them. */
  ghost predicate Remains(st: State, id: nat, rems: seq<Interval>)
    requires id in st.entries
  {
    && Disjoint(rems) && Inside(rems, st.entries[id].span.start, st.entries[id].span.end)
    && (forall t :: CoveredBy(rems, t) <==> Covers(st.entries[id].span, t) && !Taken(st, id, t))
  }

  /** Some other confirmed row occupies the instant. */
  ghost predicate Taken(st: State, id: nat, t: int) {
    exists x :: x in st.entries && x != id && st.entries[x].attestation == Confirmed && Covers(st.entries[x].span, t)
  }

  lemma CutsRemain(env: Env, st: State, id: nat)
    requires env.Valid() && Proper(st) && id in st.entries
    requires st.entries[id].span.start < st.entries[id].span.end
    ensures var overlaps := OverlapRows(env.listRows(st.entries), id, st.entries[id].span);
            Remains(st, id, CutAll([st.entries[id].span], SpansOf(overlaps)))
  {
    hide Disjoint, Proper, CutAll, OverlapRows, Taken, SpansOf;
    var span := st.entries[id].span;
    var overlaps := OverlapRows(env.listRows(st.entries), id, span);
    var cuts := SpansOf(overlaps);
    ProperCuts(env, st, id);
    OneSpan(span);
    CutAllDisjoint([span], cuts, span.start, span.end);
    forall t ensures CoveredBy(CutAll([span], cuts), t) <==> Covers(span, t) && !Taken(st, id, t) {
      CutAllCovers([span], cuts, t);
      TakenByCuts(env, st, id, t);
    }
  }

  lemma OneSpan(span: Interval)
    requires span.start < span.end
    ensures Disjoint([span]) && Inside([span], span.start, span.end)
    ensures forall t :: CoveredBy([span], t) <==> Covers(span, t)
  {
    assert [span][0] == span;
    forall t | Covers(span, t) ensures CoveredBy([span], t) { assert Covers([span][0], t); }
  }

  predicate AllForward(cuts: seq<Interval>) {
    forall i :: 0 <= i < |cuts| ==> cuts[i].start <= cuts[i].end
  }

  lemma ProperCuts(env: Env, st: State, id: nat)
    requires env.Valid() && Proper(st) && id in st.entries
    ensures AllForward(SpansOf(OverlapRows(env.listRows(st.entries), id, st.entries[id].span)))
  {
    var overlaps := OverlapRows(env.listRows(st.entries), id, st.entries[id].span);
    OverlapsListed(env, st, id, st.entries[id].span);
    hide OverlapRows;
    forall i | 0 <= i < |overlaps| ensures SpansOf(overlaps)[i].start <= SpansOf(overlaps)[i].end {
      assert overlaps[i] in overlaps;
    }
  }

  /** Inside the draft, the overlapping rows occupy what all other confirmed rows occupy. */
  lemma TakenByCuts(env: Env, st: State, id: nat, t: int)
    requires env.Valid() && id in st.entries
    ensures var span := st.entries[id].span;
            Covers(span, t) ==> (CoveredBy(SpansOf(OverlapRows(env.listRows(st.entries), id, span)), t) <==> Taken(st, id, t))
  {
    hide OverlapRows, SpansOf;
    var span := st.entries[id].span;
    var overlaps := OverlapRows(env.listRows(st.entries), id, span);
    OverlapsListed(env, st, id, span);
    if CoveredBy(SpansOf(overlaps), t) {
      var r := CoveringRow(overlaps, t);
      assert r.id in st.entries && st.entries[r.id] == r.te;
    }
    if Taken(st, id, t) && Covers(span, t) {
      var x :| x in st.entries && x != id && st.entries[x].attestation == Confirmed && Covers(st.entries[x].span, t);
      assert Clashes(Row(x, st.entries[x]), id, span);
      RowCovers(overlaps, Row(x, st.entries[x]), t);
    }
  }

  lemma CoveringRow(rows: seq<Row>, t: int) returns (r: Row)
    requires CoveredBy(SpansOf(rows), t)
    ensures r in rows && Covers(r.te.span, t)
  {
    var i :| 0 <= i < |SpansOf(rows)| && Covers(SpansOf(rows)[i], t);
    r := rows[i];
  }

  lemma RowCovers(rows: seq<Row>, r: Row, t: int)
    requires r in rows && Covers(r.te.span, t)
    ensures CoveredBy(SpansOf(rows), t)
  {
    var i :| 0 <= i < |rows| && rows[i] == r;
    assert Covers(SpansOf(rows)[i], t);
  }

  /** No piece strictly reaches into a cut, not even into an empty one. */
  predicate Clean(pieces: seq<Interval>, cut: Interval) {
    forall i :: 0 <= i < |pieces| ==> !Overlaps(pieces[i], cut)
  }

  ghost predicate PartOf(piece: Interval, wholes: seq<Interval>) {
    exists j :: 0 <= j < |wholes| && Within(piece, wholes[j])
  }

  ghost predicate Parts(pieces: seq<Interval>, wholes: seq<Interval>) {
    forall i :: 0 <= i < |pieces| ==> PartOf(pieces[i], wholes)
  }

  lemma CleanParts(pieces: seq<Interval>, wholes: seq<Interval>, cut: Interval)
    requires Parts(pieces, wholes) && Clean(wholes, cut)
    ensures Clean(pieces, cut)
  {
  }

  lemma {:induction false} CutSpansClean(spans: seq<Interval>, cut: Interval)
    requires cut.start <= cut.end
    ensures Clean(CutSpans(spans, cut), cut) && Parts(CutSpans(spans, cut), spans)
  {
    if |spans| > 0 {
      var init, last := spans[..|spans| - 1], spans[|spans| - 1];
      CutSpansClean(init, cut);
      var a, b := CutSpans(init, cut), CutOne(last, cut);
      assert spans == init + [last];
      PartsPush(a, b, init, last);
    }
  }

  lemma {:induction false} CutAllClean(spans: seq<Interval>, cuts: seq<Interval>, k: nat)
    requires k < |cuts|
    requires forall i :: 0 <= i < |cuts| ==> cuts[i].start <= cuts[i].end
    ensures Clean(CutAll(spans, cuts), cuts[k])
  {
    var init, last := cuts[..|cuts| - 1], cuts[|cuts| - 1];
    CutSpansClean(CutAll(spans, init), last);
    if k < |cuts| - 1 {
      CutAllClean(spans, init, k);
      CleanParts(CutAll(spans, cuts), CutAll(spans, init), init[k]);
    }
  }

  lemma PiecesFree(env: Env, st: State, id: nat, zone: Zone, policy: Overnight)
    requires env.Valid() && zone.Valid() && Proper(st) && id in st.entries && st.entries[id].span.start < st.entries[id].span.end
    ensures var span := st.entries[id].span;
            var rems := CutAll([span], SpansOf(OverlapRows(env.listRows(st.entries), id, span)));
            var pieces := RemainderPieces(zone, rems, policy);
            && Remains(st, id, rems) && Disjoint(pieces) && SameCover(pieces, rems)
            && (forall i :: 0 <= i < |pieces| ==> Free(st, id, pieces[i]))
  {
    var span := st.entries[id].span;
    var overlaps := OverlapRows(env.listRows(st.entries), id, span);
    var rems := CutAll([span], SpansOf(overlaps));
    var pieces := RemainderPieces(zone, rems, policy);
    CutsRemain(env, st, id);
    assert Disjoint(rems) && Inside(rems, span.start, span.end);
    RemainderDisjoint(zone, rems, policy, span.start, span.end);
    RemainderParts(zone, rems, policy);
    OverlapsListed(env, st, id, span);
    hide Remains, Disjoint, SameCover, RemainderPieces, CutAll;
    forall x | x in st.entries && x != id && st.entries[x].attestation == Confirmed
      ensures Clean(pieces, st.entries[x].span)
    {
      OneRowClean(st, id, overlaps, rems, pieces, x);
    }
  }

  lemma OneRowClean(st: State, id: nat, overlaps: seq<Row>, rems: seq<Interval>, pieces: seq<Interval>, x: nat)
    requires Proper(st) && id in st.entries && rems == CutAll([st.entries[id].span], SpansOf(overlaps))
    requires forall r :: r in overlaps ==> r.id in st.entries && st.entries[r.id] == r.te
    requires x in st.entries && x != id && st.entries[x].attestation == Confirmed
    requires Clashes(Row(x, st.entries[x]), id, st.entries[id].span) ==> Row(x, st.entries[x]) in overlaps
    requires Parts(pieces, rems) && Inside(pieces, st.entries[id].span.start, st.entries[id].span.end)
    ensures Clean(pieces, st.entries[x].span)
  {
    if Row(x, st.entries[x]) in overlaps {
      var k :| 0 <= k < |overlaps| && overlaps[k] == Row(x, st.entries[x]);
      var cuts := SpansOf(overlaps);
      forall i | 0 <= i < |cuts| ensures cuts[i].start <= cuts[i].end {
        assert overlaps[i] in overlaps;
      }
      CutAllClean([st.entries[id].span], cuts, k);
      CleanParts(pieces, rems, cuts[k]);
    }
  }

  lemma {:induction false} EmptyCutAway(sp: Interval, cuts: seq<Interval>)
    requires sp.start == sp.end && |cuts| > 0
    requires forall i :: 0 <= i < |cuts| ==> Overlaps(sp, cuts[i])
    ensures CutAll([sp], cuts) == []
  {
    if |cuts| > 1 {
      EmptyCutAway(sp, cuts[..|cuts| - 1]);
    } else {
      assert CutAll([sp], cuts[..0]) == [sp];
      assert [sp][..0] == [];
      assert CutSpans([sp], cuts[0]) == CutOne(sp, cuts[0]) == [];
    }
  }

  lemma ProperSpan(st: State, id: nat)
    requires Proper(st) && id in st.entries
    ensures st.entries[id].span.start <= st.entries[id].span.end
  {
  }

  lemma DismissClear(st: State, id: nat)
    requires id in st.entries
    ensures NoNewClash(st, SetAttestation(st, id, Dismissed))
  {
  }

  lemma EmptyDraftGone(env: Env, st: State, id: nat)
    requires env.Valid() && id in st.entries && st.entries[id].span.start == st.entries[id].span.end
    requires OverlapRows(env.listRows(st.entries), id, st.entries[id].span) != []
    ensures CutAll([st.entries[id].span], SpansOf(OverlapRows(env.listRows(st.entries), id, st.entries[id].span))) == []
  {
    var te := st.entries[id];
    var overlaps := OverlapRows(env.listRows(st.entries), id, te.span);
    OverlapsListed(env, st, id, te.span);
    forall i | 0 <= i < |overlaps| ensures Overlaps(te.span, SpansOf(overlaps)[i]) {
      assert overlaps[i] in overlaps;
    }
    EmptyCutAway(te.span, SpansOf(overlaps));
  }

  lemma AroundClear(env: Env, st: State, id: nat, zone: Zone, policy: Overnight)
    requires env.Valid() && zone.Valid() && WellFormed(st) && Proper(st) && id in st.entries
    requires OverlapRows(env.listRows(st.entries), id, st.entries[id].span) != []
    ensures var overlaps := OverlapRows(env.listRows(st.entries), id, st.entries[id].span);
            NoNewClash(st, ConfirmAround(st, id, zone, overlaps, policy).st)
  {
    hide WellFormed, NoNewClash, OverlapRows, CutAll, SpansOf, RemainderPieces, CreatePieces, Proper, Disjoint, Remains, SameCover, Free, Replaced, SetAttestation;
    var te := st.entries[id];
    var overlaps := OverlapRows(env.listRows(st.entries), id, te.span);
    var rems := CutAll([te.span], SpansOf(overlaps));
    ProperSpan(st, id);
    SelfClear(st);
    DismissClear(st, id);
    if te.span.start == te.span.end {
      EmptyDraftGone(env, st, id);
    } else {
      var pieces := RemainderPieces(zone, rems, policy);
      PiecesFree(env, st, id, zone, policy);
      ReplaceStep(st, id, zone, pieces);
      var st1 := CreatePieces(st, te, zone, pieces, Confirmed);
      var st2 := st1.(entries := st1.entries[id := te.(attestation := Dismissed)]);
      ReplacedClear(st, st2, id, zone, pieces);
    }
  }

  /** Confirming a draft, other than in parallel by request, never makes two confirmed rows overlap
      that did not overlap before; this holds on the error paths too. */
  lemma ConfirmAddsNoOverlap(env: Env, st: State, id: nat, policy: Overnight, resolution: Resolution)
    requires env.Valid() && WellFormed(st) && Proper(st) && resolution != AllowParallel
    ensures NoNewClash(st, ConfirmEntry(env, st, id, policy, resolution).st)
  {
    hide WellFormed, Free, Clashes, OverlapRows, ConfirmOvernight, ConfirmAround, IdsOf;
    SelfClear(st);
    if id in st.entries && st.entries[id].attestation == Draft && env.hasTz {
      var te := st.entries[id];
      var zone := env.zoneOf(te.day);
      var overlaps := OverlapRows(env.listRows(st.entries), id, te.span);
      OverlapsListed(env, st, id, te.span);
      if overlaps == [] {
        FreeWhenNone(st, id, overlaps);
        OvernightClear(st, id, zone, policy);
      } else if resolution == KeepMine {
        var st1 := st.(entries := st.entries - IdsOf(overlaps));
        RemovedFree(st, st1, id, overlaps);
        OvernightClear(st1, id, zone, policy);
        assert NoNewClash(st1, ConfirmEntry(env, st, id, policy, resolution).st);
      } else if resolution == SplitAround {
        AroundClear(env, st, id, zone, policy);
      }
    }
  }

  lemma FreeWhenNone(st: State, id: nat, overlaps: seq<Row>)
    requires id in st.entries && overlaps == []
    requires forall x :: x in st.entries && Clashes(Row(x, st.entries[x]), id, st.entries[id].span) ==> Row(x, st.entries[x]) in overlaps
    ensures Free(st, id, st.entries[id].span)
  {
  }

  lemma RemovedFree(st: State, st1: State, id: nat, overlaps: seq<Row>)
    requires WellFormed(st) && Proper(st) && id in st.entries && st1 == st.(entries := st.entries - IdsOf(overlaps))
    requires forall r :: r in overlaps ==> r.id in st.entries && st.entries[r.id] == r.te && Clashes(r, id, st.entries[id].span)
    requires forall x :: x in st.entries && Clashes(Row(x, st.entries[x]), id, st.entries[id].span) ==> Row(x, st.entries[x]) in overlaps
    ensures WellFormed(st1) && Proper(st1) && id in st1.entries && st1.entries[id] == st.entries[id]
    ensures Free(st1, id, st.entries[id].span) && NoNewClash(st, st1)
  {
    forall x | x in st.entries && Clashes(Row(x, st.entries[x]), id, st.entries[id].span) ensures x in IdsOf(overlaps) {
      assert Row(x, st.entries[x]).id in IdsOf(overlaps);
    }
    forall x | x in st1.entries && x != id && st1.entries[x].attestation == Confirmed
      ensures !Overlaps(st.entries[id].span, st1.entries[x].span)
    {
      assert !Clashes(Row(x, st.entries[x]), id, st.entries[id].span);
    }
  }

  // ── what is confirmed, and what stays ───────────────────────────────

  /** After the step the instant is occupied by the draft's own row or by a row created for it. */
  ghost predicate ConfirmedAt(st: State, st': State, id: nat, t: int) {
    exists x :: x in st'.entries && (x == id || x !in st.entries)
      && st'.entries[x].attestation == Confirmed && Covers(st'.entries[x].span, t)
  }

  /** The instants of a draft that a resolution asks to confirm. */
  ghost predicate Wanted(st: State, id: nat, resolution: Resolution, t: int)
    requires id in st.entries
  {
    && Covers(st.entries[id].span, t)
    && resolution != KeepTheirs
    && (resolution == SplitAround ==> !Taken(st, id, t))
  }

  lemma ReplacedCovers(st: State, st': State, id: nat, zone: Zone, pieces: seq<Interval>, t: int)
    requires WellFormed(st) && id in st.entries && Replaced(st, st', id, zone, pieces)
    ensures ConfirmedAt(st, st', id, t) <==> CoveredBy(pieces, t)
  {
    var n := st.nextEntry;
    assert forall x :: x in st.entries ==> x < n;
    hide WellFormed;
    if CoveredBy(pieces, t) {
      var i :| 0 <= i < |pieces| && Covers(pieces[i], t);
      assert n + i in st'.entries && n + i !in st.entries;
    }
    if ConfirmedAt(st, st', id, t) {
      var x :| x in st'.entries && (x == id || x !in st.entries)
        && st'.entries[x].attestation == Confirmed && Covers(st'.entries[x].span, t);
      assert Covers(pieces[x - n], t);
    }
  }

  lemma InPlaceCovers(st: State, id: nat, t: int)
    requires id in st.entries
    ensures ConfirmedAt(st, SetAttestation(st, id, Confirmed), id, t) <==> Covers(st.entries[id].span, t)
    ensures !ConfirmedAt(st, SetAttestation(st, id, Dismissed), id, t)
  {
    assert id in SetAttestation(st, id, Confirmed).entries;
  }

  lemma OvernightCovers(st: State, id: nat, zone: Zone, policy: Overnight, t: int)
    requires WellFormed(st) && id in st.entries && zone.Valid() && st.entries[id].span.start <= st.entries[id].span.end
    requires ConfirmOvernight(st, id, zone, policy).ok
    ensures ConfirmedAt(st, ConfirmOvernight(st, id, zone, policy).st, id, t) <==> Covers(st.entries[id].span, t)
  {
    var te := st.entries[id];
    var pieces := MidnightPieces(zone, te.span.start, te.span.end);
    MidnightPiecesTile(zone, te.span.start, te.span.end);
    TilesCover(pieces, te.span.start, te.span.end);
    ReplaceStep(st, id, zone, pieces);
    InPlaceCovers(st, id, t);
    hide WellFormed, Tiles, ConfirmedAt, MidnightPieces, CreatePieces;
    var st' := ConfirmOvernight(st, id, zone, policy).st;
    if zone.CrossesMidnight(te.span.start, te.span.end) && policy == SplitAtMidnight {
      assert Replaced(st, st', id, zone, pieces);
      ReplacedCovers(st, st', id, zone, pieces, t);
    }
  }

  lemma AroundCovers(env: Env, st: State, id: nat, zone: Zone, policy: Overnight, t: int)
    requires env.Valid() && zone.Valid() && WellFormed(st) && Proper(st) && id in st.entries
    requires OverlapRows(env.listRows(st.entries), id, st.entries[id].span) != []
    requires ConfirmAround(st, id, zone, OverlapRows(env.listRows(st.entries), id, st.entries[id].span), policy).ok
    ensures var overlaps := OverlapRows(env.listRows(st.entries), id, st.entries[id].span);
            ConfirmedAt(st, ConfirmAround(st, id, zone, overlaps, policy).st, id, t) <==> Wanted(st, id, SplitAround, t)
  {
    hide WellFormed, OverlapRows, CutAll, SpansOf, RemainderPieces, CreatePieces, Proper, Disjoint, Free, ConfirmedAt, Taken, Replaced, SetAttestation;
    var te := st.entries[id];
    var overlaps := OverlapRows(env.listRows(st.entries), id, te.span);
    var rems := CutAll([te.span], SpansOf(overlaps));
    var pieces := RemainderPieces(zone, rems, policy);
    InPlaceCovers(st, id, t);
    ProperSpan(st, id);
    if te.span.start == te.span.end {
      EmptyDraftGone(env, st, id);
    } else {
      PiecesFree(env, st, id, zone, policy);
      ReplaceStep(st, id, zone, pieces);
      var st' := ConfirmAround(st, id, zone, overlaps, policy).st;
      if rems == [] {
        assert !CoveredBy(rems, t);
      } else {
        assert Replaced(st, st', id, zone, pieces);
        ReplacedCovers(st, st', id, zone, pieces, t);
      }
      assert CoveredBy(pieces, t) <==> CoveredBy(rems, t);
    }
  }

  /** A successful confirmation occupies exactly the wanted instants: the whole draft, nothing under
      keep-theirs, and under split the draft minus the union of all other confirmed rows. */
  lemma ConfirmCovers(env: Env, st: State, id: nat, policy: Overnight, resolution: Resolution, t: int)
    requires env.Valid() && WellFormed(st) && Proper(st)
    requires ConfirmEntry(env, st, id, policy, resolution).ok
    ensures id in st.entries
    ensures ConfirmedAt(st, ConfirmEntry(env, st, id, policy, resolution).st, id, t) <==> Wanted(st, id, resolution, t)
  {
    var te := st.entries[id];
    var zone := env.zoneOf(te.day);
    var overlaps := OverlapRows(env.listRows(st.entries), id, te.span);
    OverlapsListed(env, st, id, te.span);
    InPlaceCovers(st, id, t);
    assert te.span.start <= te.span.end;
    if overlaps != [] && resolution == SplitAround {
      hide OverlapRows, ConfirmAround, ConfirmOvernight, WellFormed, Proper, ConfirmedAt;
      AroundCovers(env, st, id, zone, policy, t);
    } else if overlaps != [] && resolution == KeepMine {
      var st1 := st.(entries := st.entries - IdsOf(overlaps));
      RemovedFree(st, st1, id, overlaps);
      hide OverlapRows, ConfirmAround, ConfirmOvernight, WellFormed, Proper, ConfirmedAt, Free;
      OvernightCovers(st1, id, zone, policy, t);
      RemovedStayGone(st, st1, id, zone, policy, t);
    } else if overlaps == [] || resolution == AllowParallel {
      hide OverlapRows, ConfirmAround, ConfirmOvernight, WellFormed, Proper, ConfirmedAt;
      OvernightCovers(st, id, zone, policy, t);
    }
  }

  /** Rows removed before the confirmation do not come back with it. */
  lemma RemovedStayGone(st: State, st1: State, id: nat, zone: Zone, policy: Overnight, t: int)
    requires WellFormed(st) && WellFormed(st1) && zone.Valid() && id in st1.entries
    requires st1 == st.(entries := st1.entries) && st1.entries.Keys <= st.entries.Keys
    ensures var st' := ConfirmOvernight(st1, id, zone, policy).st;
            ConfirmedAt(st, st', id, t) <==> ConfirmedAt(st1, st', id, t)
  {
    var te := st1.entries[id];
    CreatePiecesStep(st1, te, zone, MidnightPieces(zone, te.span.start, te.span.end), Confirmed);
    hide MidnightPieces, CreatePieces;
    var st' := ConfirmOvernight(st1, id, zone, policy).st;
    assert forall x :: x in st'.entries && x !in st1.entries ==> st.nextEntry <= x;
    assert forall x :: x in st.entries ==> x < st.nextEntry;
  }
}
