/** internal/service/time_entry_confirm.go and internal/service/time_entry.go as methods over the
    tables. */
module EntryService {
  import opened Wrappers
  import opened Intervals
  import opened Cutting
  import opened LedgerTypes
  import opened LedgerSpec
  import opened LedgerUser
  import opened Store

  method OverlappingConfirmed(q: Queries, env: Env, excludeId: nat, span: Interval) returns (out: seq<Row>)
    ensures out == OverlapRows(env.listRows(q.entries), excludeId, span)
  {
    var rows := env.listRows(q.entries);
    out := [];
    for n := 0 to |rows|
      invariant out == OverlapRows(rows[..n], excludeId, span)
    {
      assert rows[..n + 1][..n] == rows[..n];
      var r := rows[n];
      if r.id == excludeId || r.te.attestation != Confirmed {
        continue;
      }
      if r.te.span.start < span.end && r.te.span.end > span.start {
        out := out + [r];
      }
    }
    assert rows[..|rows|] == rows;
  }

  /** Inserts one row per piece, in order. */
  method CreateAll(q: Queries, te: TimeEntry, zone: Zone, pieces: seq<Interval>, a: Attestation)
    modifies q
    ensures q.Tables() == CreatePieces(old(q.Tables()), te, zone, pieces, a)
  {
    ghost var st0 := q.Tables();
    for n := 0 to |pieces|
      invariant q.Tables() == CreatePieces(st0, te, zone, pieces[..n], a)
    {
      assert pieces[..n + 1][..n] == pieces[..n];
      var piece := pieces[n];
      var _ := q.CreateTimeEntry(te.(span := piece, minutes := Minutes(piece), day := zone.day(piece.start), attestation := a));
    }
    assert pieces[..|pieces|] == pieces;
  }

  lemma {:induction false} CreateInTwo(st: State, te: TimeEntry, zone: Zone, a: seq<Interval>, b: seq<Interval>, att: Attestation)
    ensures CreatePieces(st, te, zone, a + b, att) == CreatePieces(CreatePieces(st, te, zone, a, att), te, zone, b, att)
  {
    if |b| == 0 {
      assert a + b == a;
    } else {
      assert (a + b)[..|a + b| - 1] == a + b[..|b| - 1];
      CreateInTwo(st, te, zone, a, b[..|b| - 1], att);
    }
  }

  method ConfirmInPlace(q: Queries, id: nat) returns (ok: bool)
    modifies q
    ensures ok <==> id in old(q.entries)
    ensures q.Tables() == if ok then SetAttestation(old(q.Tables()), id, Confirmed) else old(q.Tables())
  {
    ok := q.UpdateAttestation(id, Confirmed);
  }

  method ConfirmSplitAtMidnight(q: Queries, id: nat, zone: Zone) returns (ok: bool)
    requires id in q.entries && id < q.nextEntry && zone.Valid()
    modifies q
    ensures var (st, te) := (old(q.Tables()), old(q.entries)[id]);
            var pieces := MidnightPieces(zone, te.span.start, te.span.end);
            && (ok <==> |pieces| >= 2)
            && (!ok ==> q.Tables() == st)
            && (ok ==> var st1 := CreatePieces(st, te, zone, pieces, Confirmed);
                       q.Tables() == st1.(entries := st1.entries[id := te.(attestation := Dismissed)]))
  {
    var row := q.entries[id];
    var segments := SplitAtLocalMidnights(zone, row.span.start, row.span.end);
    if |segments| < 2 {
      return false;
    }
    ghost var st := q.Tables();
    CreateAll(q, row, zone, segments, Confirmed);
    PiecesKeepRow(st, row, zone, segments, Confirmed, id);
    ok := q.UpdateAttestation(id, Dismissed);
  }

  lemma {:induction false} PiecesKeepRow(st: State, te: TimeEntry, zone: Zone, pieces: seq<Interval>, a: Attestation, id: nat)
    requires id in st.entries && id < st.nextEntry
    ensures var st' := CreatePieces(st, te, zone, pieces, a);
            id in st'.entries && st'.entries[id] == st.entries[id] && st.nextEntry <= st'.nextEntry
  {
    if |pieces| > 0 { PiecesKeepRow(st, te, zone, pieces[..|pieces| - 1], a, id); }
  }

  /** The overnight gate, after overlaps have been dealt with. */
  method ConfirmGated(q: Queries, id: nat, zone: Zone, policy: Overnight) returns (ok: bool)
    requires id in q.entries && id < q.nextEntry && zone.Valid()
    modifies q
    ensures Result(q.Tables(), ok) == ConfirmOvernight(old(q.Tables()), id, zone, policy)
  {
    var span := q.entries[id].span;
    if zone.CrossesMidnight(span.start, span.end) {
      match policy {
        case AttributeToStart => ok := ConfirmInPlace(q, id);
        case SplitAtMidnight => ok := ConfirmSplitAtMidnight(q, id, zone);
        case _ => ok := false;
      }
      return;
    }
    if policy != NoPolicy {
      return false;
    }
    ok := ConfirmInPlace(q, id);
  }

  method SubtractRows(span: Interval, overlaps: seq<Row>) returns (remainders: seq<Interval>)
    ensures remainders == CutAll([span], SpansOf(overlaps))
  {
    remainders := [span];
    ghost var cuts := SpansOf(overlaps);
    for n := 0 to |overlaps|
      invariant remainders == CutAll([span], cuts[..n])
    {
      assert cuts[..n + 1][..n] == cuts[..n];
      remainders := SubtractInterval(remainders, overlaps[n].te.span.start, overlaps[n].te.span.end);
    }
    assert cuts[..|overlaps|] == cuts;
  }

  method ConfirmDraftAroundOverlaps(q: Queries, id: nat, zone: Zone, overlaps: seq<Row>, policy: Overnight) returns (ok: bool)
    requires id in q.entries && id < q.nextEntry && zone.Valid()
    modifies q
    ensures Result(q.Tables(), ok) == ConfirmAround(old(q.Tables()), id, zone, overlaps, policy)
  {
    hide CreatePieces, CutAll, RemainderPieces, SpansOf;
    var row := q.entries[id];
    var remainders := SubtractRows(row.span, overlaps);
    if |remainders| == 0 {
      ok := q.UpdateAttestation(id, Dismissed);
      return;
    }
    for n := 0 to |remainders|
      invariant policy == NoPolicy ==> forall i :: 0 <= i < n ==> !zone.CrossesMidnight(remainders[i].start, remainders[i].end)
    {
      if zone.CrossesMidnight(remainders[n].start, remainders[n].end) && policy == NoPolicy {
        return false;
      }
    }
    ghost var st := q.Tables();
    ConfirmRemainders(q, row, zone, remainders, policy);
    PiecesKeepRow(st, row, zone, RemainderPieces(zone, remainders, policy), Confirmed, id);
    ok := q.UpdateAttestation(id, Dismissed);
  }

  method ConfirmRemainders(q: Queries, row: TimeEntry, zone: Zone, remainders: seq<Interval>, policy: Overnight)
    requires zone.Valid()
    modifies q
    ensures q.Tables() == CreatePieces(old(q.Tables()), row, zone, RemainderPieces(zone, remainders, policy), Confirmed)
  {
    ghost var st := q.Tables();
    for n := 0 to |remainders|
      invariant q.Tables() == CreatePieces(st, row, zone, RemainderPieces(zone, remainders[..n], policy), Confirmed)
    {
      assert remainders[..n + 1][..n] == remainders[..n];
      var rem := remainders[n];
      var pieces := [rem];
      if policy == SplitAtMidnight && zone.CrossesMidnight(rem.start, rem.end) {
        pieces := SplitAtLocalMidnights(zone, rem.start, rem.end);
      }
      CreateInTwo(st, row, zone, RemainderPieces(zone, remainders[..n], policy), pieces, Confirmed);
      CreateAll(q, row, zone, pieces, Confirmed);
    }
    assert remainders[..|remainders|] == remainders;
  }

  /** Promotes a draft. The deletions of keep-mine are not in a transaction: they stay when the overnight
      gate then refuses. */
  method ConfirmTimeEntry(q: Queries, env: Env, id: nat, policy: Overnight, resolution: Resolution) returns (ok: bool)
    requires env.Valid() && (forall x :: x in q.entries ==> x < q.nextEntry)
    modifies q
    ensures Result(q.Tables(), ok) == ConfirmEntry(env, old(q.Tables()), id, policy, resolution)
  {
    hide ConfirmOvernight, ConfirmAround;
    if id !in q.entries || q.entries[id].attestation != Draft {
      return false;
    }
    var row := q.entries[id];
    if !env.hasTz {
      return false;
    }
    var zone := env.zoneOf(row.day);
    var overlaps := OverlappingConfirmed(q, env, id, row.span);
    if |overlaps| > 0 {
      match resolution {
        case AllowParallel =>
        case KeepTheirs =>
          ok := q.UpdateAttestation(id, Dismissed);
          return;
        case KeepMine =>
          DeleteRows(q, overlaps);
          if id !in q.entries {
            return false;
          }
        case SplitAround =>
          ok := ConfirmDraftAroundOverlaps(q, id, zone, overlaps, policy);
          return;
        case _ =>
          return false;
      }
    } else if resolution != NoResolution {
      return false;
    }
    ok := ConfirmGated(q, id, zone, policy);
  }

  method DeleteRows(q: Queries, rows: seq<Row>)
    modifies q
    ensures q.Tables() == old(q.Tables()).(entries := old(q.entries) - IdsOf(rows))
  {
    ghost var st := q.Tables();
    for n := 0 to |rows|
      invariant q.Tables() == st.(entries := st.entries - IdsOf(rows[..n]))
    {
      assert rows[..n + 1] == rows[..n] + [rows[n]];
      assert IdsOf(rows[..n + 1]) == IdsOf(rows[..n]) + {rows[n].id};
      var _ := q.DeleteTimeEntry(rows[n].id);
    }
    assert rows[..|rows|] == rows;
  }

  method RejectTimeEntry(q: Queries, id: nat) returns (ok: bool)
    modifies q
    ensures Result(q.Tables(), ok) == RejectEntry(old(q.Tables()), id)
  {
    if id !in q.entries || q.entries[id].attestation != Draft {
      return false;
    }
    ok := q.UpdateAttestation(id, Dismissed);
  }

  lemma {:induction false} CutPiecesPush(start: int, cuts: seq<int>, end: int)
    ensures var bounds := [start] + cuts + [end];
            CutPieces(start, cuts, end) == seq(|bounds| - 1, i requires 0 <= i < |bounds| - 1 => Interval(bounds[i], bounds[i + 1]))
  {
    if |cuts| > 0 {
      var init, c := cuts[..|cuts| - 1], cuts[|cuts| - 1];
      CutPiecesPush(start, init, c);
      assert cuts == init + [c];
      assert [start] + cuts + [end] == ([start] + init + [c]) + [end];
    }
  }

  /** Replaces a draft by drafts at the cut points, which must ascend strictly inside its span. */
  method SplitTimeEntry(q: Queries, env: Env, id: nat, cutPoints: seq<int>) returns (ok: bool)
    requires forall x :: x in q.entries ==> x < q.nextEntry
    modifies q
    ensures Result(q.Tables(), ok) == SplitEntry(env, old(q.Tables()), id, cutPoints)
  {
    if |cutPoints| == 0 || id !in q.entries || q.entries[id].attestation != Draft || !env.hasTz {
      return false;
    }
    var row := q.entries[id];
    var zone := env.zoneOf(row.day);
    var cuts: seq<int> := [];
    var prev := row.span.start;
    for n := 0 to |cutPoints|
      invariant cuts == cutPoints[..n]
      invariant prev == if n == 0 then row.span.start else cutPoints[n - 1]
      invariant forall i :: 0 <= i < n ==> GoodCut(row.span, cutPoints, i)
    {
      var cut := cutPoints[n];
      if !(cut > prev) || !(cut < row.span.end) {
        assert !GoodCut(row.span, cutPoints, n);
        return false;
      }
      cuts := cuts + [cut];
      prev := cut;
    }
    assert cuts == cutPoints && GoodCuts(row.span, cutPoints);
    ok := ReplaceBySegments(q, row, id, zone, cuts);
  }

  /** Creates one draft per segment between the bounds, then dismisses the original. */
  method ReplaceBySegments(q: Queries, row: TimeEntry, id: nat, zone: Zone, cuts: seq<int>) returns (ok: bool)
    requires id in q.entries && q.entries[id] == row && forall x :: x in q.entries ==> x < q.nextEntry
    modifies q
    ensures ok
    ensures var st1 := CreatePieces(old(q.Tables()), row, zone, CutPieces(row.span.start, cuts, row.span.end), Draft);
            q.Tables() == st1.(entries := st1.entries[id := row.(attestation := Dismissed)])
  {
    hide Minutes, CutPieces;
    var bounds := [row.span.start] + cuts + [row.span.end];
    ghost var st := q.Tables();
    ghost var pieces := CutPieces(row.span.start, cuts, row.span.end);
    CutPiecesPush(row.span.start, cuts, row.span.end);
    for i := 0 to |bounds| - 1
      invariant q.Tables() == CreatePieces(st, row, zone, pieces[..i], Draft)
    {
      assert pieces[..i + 1][..i] == pieces[..i];
      var seg := Interval(bounds[i], bounds[i + 1]);
      var _ := q.CreateTimeEntry(row.(span := seg, minutes := Minutes(seg), day := zone.day(seg.start), attestation := Draft));
    }
    assert pieces[..|bounds| - 1] == pieces;
    PiecesKeepRow(st, row, zone, pieces, Draft, id);
    ok := q.UpdateAttestation(id, Dismissed);
  }

  method UpdateEntryFields(q: Queries, id: nat, e: Edit) returns (ok: bool)
    modifies q
    ensures Result(q.Tables(), ok) == UpdateEntry(old(q.Tables()), id, e)
  {
    if id !in q.entries {
      return false;
    }
    ok := q.UpdateTimeEntry(id, Edited(q.entries[id], e));
  }

  method AdjustDraftTimeEntry(q: Queries, id: nat, e: Edit) returns (ok: bool)
    modifies q
    ensures Result(q.Tables(), ok) == AdjustDraft(old(q.Tables()), id, e)
  {
    if id !in q.entries || q.entries[id].attestation != Draft {
      return false;
    }
    ok := UpdateEntryFields(q, id, e);
  }
}
