/** When confirming a draft is accepted, what it may touch, and what splitting a draft conserves. */
module LedgerDecisions {
  import opened Wrappers
  import opened Intervals
  import opened Cutting
  import opened LedgerTypes
  import opened LedgerSpec
  import opened LedgerSteps
  import opened LedgerUser
  import opened LedgerConfirm

  // ── acceptance ──────────────────────────────────────────────────────

  /** A local midnight at the end of a covered instant. */
  ghost predicate ReachesMidnight(zone: Zone, iv: Interval) {
    exists m :: zone.Midnight(m) && iv.start < m <= iv.end
  }

  /** The overnight policy must be given exactly when the span reaches a local midnight, and the split
      policy is accepted exactly when one lies strictly inside. */
  ghost predicate PolicyFits(zone: Zone, iv: Interval, policy: Overnight) {
    if ReachesMidnight(zone, iv) then
      policy == AttributeToStart || (policy == SplitAtMidnight && exists m :: zone.Midnight(m) && iv.start < m < iv.end)
    else policy == NoPolicy
  }

  lemma CrossesIff(zone: Zone, iv: Interval)
    requires zone.Valid() && iv.start <= iv.end
    ensures zone.CrossesMidnight(iv.start, iv.end) <==> ReachesMidnight(zone, iv)
  {
    if iv.start < iv.end {
      CrossesIffMidnightReached(zone, iv.start, iv.end);
      if zone.CrossesMidnight(iv.start, iv.end) {
        var m :| iv.start < m <= iv.end && zone.Midnight(m);
        assert ReachesMidnight(zone, iv);
      }
    }
  }

  lemma OvernightAccepted(st: State, id: nat, zone: Zone, policy: Overnight)
    requires id in st.entries && zone.Valid() && st.entries[id].span.start <= st.entries[id].span.end
    ensures ConfirmOvernight(st, id, zone, policy).ok <==> PolicyFits(zone, st.entries[id].span, policy)
  {
    var iv := st.entries[id].span;
    CrossesIff(zone, iv);
    SplitIffMidnightInside(zone, iv.start, iv.end);
    hide MidnightPieces;
  }

  /** Some other confirmed row overlaps the draft. */
  ghost predicate Contested(st: State, id: nat)
    requires id in st.entries
  {
    exists x :: x in st.entries && Clashes(Row(x, st.entries[x]), id, st.entries[id].span)
  }

  lemma ContestedIff(env: Env, st: State, id: nat)
    requires env.Valid() && id in st.entries
    ensures Contested(st, id) <==> OverlapRows(env.listRows(st.entries), id, st.entries[id].span) != []
  {
    var overlaps := OverlapRows(env.listRows(st.entries), id, st.entries[id].span);
    OverlapsListed(env, st, id, st.entries[id].span);
    if overlaps != [] {
      assert overlaps[0] in overlaps;
      assert Clashes(Row(overlaps[0].id, st.entries[overlaps[0].id]), id, st.entries[id].span);
    }
  }

  /** An uncontested part of the draft reaches a local midnight. */
  ghost predicate RemainderReaches(st: State, id: nat, zone: Zone)
    requires id in st.entries
  {
    exists m :: zone.Midnight(m) && Wanted(st, id, SplitAround, m - 1)
  }

  lemma AroundAccepted(env: Env, st: State, id: nat, zone: Zone, policy: Overnight)
    requires env.Valid() && zone.Valid() && Proper(st) && id in st.entries && Contested(st, id)
    ensures ConfirmAround(st, id, zone, OverlapRows(env.listRows(st.entries), id, st.entries[id].span), policy).ok
            <==> policy != NoPolicy || !RemainderReaches(st, id, zone)
  {
    var span := st.entries[id].span;
    var rems := CutAll([span], SpansOf(OverlapRows(env.listRows(st.entries), id, span)));
    assert span.start <= span.end;
    ContestedIff(env, st, id);
    hide Contested, OverlapRows, CutAll, SpansOf, Proper, Taken, RemainderPieces, CreatePieces;
    if span.start == span.end {
      EmptyDraftGone(env, st, id);
    } else {
      CutsRemain(env, st, id);
      RemsReach(zone, rems);
    }
  }

  lemma RemsReach(zone: Zone, rems: seq<Interval>)
    requires zone.Valid() && Disjoint(rems)
    ensures (exists i :: 0 <= i < |rems| && zone.CrossesMidnight(rems[i].start, rems[i].end))
            <==> (exists m :: zone.Midnight(m) && CoveredBy(rems, m - 1))
  {
    forall i | 0 <= i < |rems| ensures zone.CrossesMidnight(rems[i].start, rems[i].end) <==> ReachesMidnight(zone, rems[i]) {
      CrossesIff(zone, rems[i]);
    }
    if i :| 0 <= i < |rems| && zone.CrossesMidnight(rems[i].start, rems[i].end) {
      var m :| zone.Midnight(m) && rems[i].start < m <= rems[i].end;
      assert Covers(rems[i], m - 1);
    }
    if m :| zone.Midnight(m) && CoveredBy(rems, m - 1) {
      var i :| 0 <= i < |rems| && Covers(rems[i], m - 1);
      assert ReachesMidnight(zone, rems[i]);
    }
  }

  /** When a confirmation is accepted, stated over the rows and local midnights alone. */
  ghost predicate Confirmable(env: Env, st: State, id: nat, policy: Overnight, resolution: Resolution)
    requires id in st.entries
  {
    var (zone, span) := (env.zoneOf(st.entries[id].day), st.entries[id].span);
    if !Contested(st, id) then resolution == NoResolution && PolicyFits(zone, span, policy)
    else
      match resolution
      case AllowParallel => PolicyFits(zone, span, policy)
      case KeepMine => PolicyFits(zone, span, policy)
      case KeepTheirs => true
      case SplitAround => policy != NoPolicy || !RemainderReaches(st, id, zone)
      case _ => false
  }

  lemma KeepMineAccepted(env: Env, st: State, id: nat, policy: Overnight)
    requires env.Valid() && WellFormed(st) && Proper(st) && id in st.entries
    ensures var st1 := st.(entries := st.entries - IdsOf(OverlapRows(env.listRows(st.entries), id, st.entries[id].span)));
            id in st1.entries && (ConfirmOvernight(st1, id, env.zoneOf(st.entries[id].day), policy).ok
                                  <==> PolicyFits(env.zoneOf(st.entries[id].day), st.entries[id].span, policy))
  {
    var te := st.entries[id];
    var overlaps := OverlapRows(env.listRows(st.entries), id, te.span);
    assert te.span.start <= te.span.end;
    OverlapsListed(env, st, id, te.span);
    var st1 := st.(entries := st.entries - IdsOf(overlaps));
    RemovedFree(st, st1, id, overlaps);
    hide WellFormed, Proper, Free, NoNewClash, OverlapRows, ConfirmOvernight, PolicyFits;
    OvernightAccepted(st1, id, env.zoneOf(te.day), policy);
  }

  lemma ConfirmAcceptedIff(env: Env, st: State, id: nat, policy: Overnight, resolution: Resolution)
    requires env.Valid() && WellFormed(st) && Proper(st)
    ensures ConfirmEntry(env, st, id, policy, resolution).ok <==>
            id in st.entries && st.entries[id].attestation == Draft && env.hasTz && Confirmable(env, st, id, policy, resolution)
  {
    hide WellFormed, ConfirmOvernight, ConfirmAround, OverlapRows, Contested, PolicyFits, IdsOf, RemainderReaches;
    if id in st.entries && st.entries[id].attestation == Draft && env.hasTz {
      var zone := env.zoneOf(st.entries[id].day);
      assert st.entries[id].span.start <= st.entries[id].span.end && zone.Valid();
      ContestedIff(env, st, id);
      OvernightAccepted(st, id, zone, policy);
      if Contested(st, id) {
        AroundAccepted(env, st, id, zone, policy);
        KeepMineAccepted(env, st, id, policy);
      }
    }
  }

  // ── frame ───────────────────────────────────────────────────────────

  /** The only rows a confirmation may touch: the draft, the rows created from it, and, under
      keep-mine, the rows it overlaps. */
  ghost predicate ConfirmStep(env: Env, st: State, id: nat, resolution: Resolution, r: Result) {
    && r.st == st.(entries := r.st.entries, nextEntry := r.st.nextEntry) && st.nextEntry <= r.st.nextEntry
    && (forall x :: x in st.entries && x in r.st.entries && x != id ==> r.st.entries[x] == st.entries[x])
    && (forall x :: x in st.entries && x !in r.st.entries ==>
          resolution == KeepMine && id in st.entries && Clashes(Row(x, st.entries[x]), id, st.entries[id].span))
    && (forall x :: x in r.st.entries && x !in st.entries ==>
          r.ok && id in st.entries && st.nextEntry <= x < r.st.nextEntry
          && r.st.entries[x] == PieceOf(st.entries[id], env.zoneOf(st.entries[id].day), r.st.entries[x].span, Confirmed))
    && (r.ok ==> id in st.entries && st.entries[id].attestation == Draft)
    && (id in st.entries ==> id in r.st.entries && Decided(st.entries[id], r.st.entries[id], r.ok))
  }

  /** A decision moves the attestation away from draft and changes nothing else. */
  predicate Decided(a: TimeEntry, b: TimeEntry, ok: bool) {
    b == a.(attestation := b.attestation) && (if ok then b.attestation != Draft else b.attestation == a.attestation)
  }

  lemma ReplacedFrame(env: Env, st: State, id: nat, resolution: Resolution, pieces: seq<Interval>, r: Result)
    requires WellFormed(st) && id in st.entries && st.entries[id].attestation == Draft && r.ok
    requires Replaced(st, r.st, id, env.zoneOf(st.entries[id].day), pieces)
    ensures ConfirmStep(env, st, id, resolution, r)
  {
  }

  lemma InPlaceFrame(env: Env, st: State, id: nat, resolution: Resolution, a: Attestation)
    requires id in st.entries && st.entries[id].attestation == Draft && a != Draft
    ensures ConfirmStep(env, st, id, resolution, Result(SetAttestation(st, id, a), true))
  {
  }

  lemma RefusedFrame(env: Env, st: State, id: nat, resolution: Resolution)
    ensures ConfirmStep(env, st, id, resolution, Result(st, false))
  {
  }

  lemma OvernightFrame(env: Env, st: State, id: nat, policy: Overnight, resolution: Resolution)
    requires env.Valid() && WellFormed(st) && id in st.entries && st.entries[id].attestation == Draft
    ensures ConfirmStep(env, st, id, resolution, ConfirmOvernight(st, id, env.zoneOf(st.entries[id].day), policy))
    ensures !ConfirmOvernight(st, id, env.zoneOf(st.entries[id].day), policy).ok
            ==> ConfirmOvernight(st, id, env.zoneOf(st.entries[id].day), policy).st == st
  {
    var te := st.entries[id];
    var zone := env.zoneOf(te.day);
    var pieces := MidnightPieces(zone, te.span.start, te.span.end);
    ReplaceStep(st, id, zone, pieces);
    hide WellFormed, MidnightPieces, CreatePieces, Replaced, ConfirmStep, SetAttestation;
    var r := ConfirmOvernight(st, id, zone, policy);
    RefusedFrame(env, st, id, resolution);
    InPlaceFrame(env, st, id, resolution, Confirmed);
    if zone.CrossesMidnight(te.span.start, te.span.end) && policy == SplitAtMidnight && |pieces| >= 2 {
      ReplacedFrame(env, st, id, resolution, pieces, r);
    }
  }

  lemma ConfirmKeepsRest(env: Env, st: State, id: nat, policy: Overnight, resolution: Resolution)
    requires env.Valid() && WellFormed(st)
    ensures ConfirmStep(env, st, id, resolution, ConfirmEntry(env, st, id, policy, resolution))
  {
    hide WellFormed, ConfirmStep, OverlapRows, ConfirmOvernight, ConfirmAround, IdsOf, SetAttestation;
    RefusedFrame(env, st, id, resolution);
    if id in st.entries && st.entries[id].attestation == Draft && env.hasTz {
      var overlaps := OverlapRows(env.listRows(st.entries), id, st.entries[id].span);
      OverlapsListed(env, st, id, st.entries[id].span);
      OvernightFrame(env, st, id, policy, resolution);
      InPlaceFrame(env, st, id, resolution, Dismissed);
      if overlaps != [] && resolution == KeepMine {
        RemovedFrame(env, st, id, policy, overlaps);
      } else if overlaps != [] && resolution == SplitAround {
        AroundFrame(env, st, id, overlaps, policy);
      }
    }
  }

  lemma AroundFrame(env: Env, st: State, id: nat, overlaps: seq<Row>, policy: Overnight)
    requires env.Valid() && WellFormed(st) && id in st.entries && st.entries[id].attestation == Draft
    ensures var r := ConfirmAround(st, id, env.zoneOf(st.entries[id].day), overlaps, policy);
            ConfirmStep(env, st, id, SplitAround, r) && (!r.ok ==> r.st == st)
  {
    var te := st.entries[id];
    var zone := env.zoneOf(te.day);
    var rems := CutAll([te.span], SpansOf(overlaps));
    var pieces := RemainderPieces(zone, rems, policy);
    ReplaceStep(st, id, zone, pieces);
    hide WellFormed, RemainderPieces, CreatePieces, Replaced, CutAll, SpansOf, ConfirmStep, SetAttestation;
    var r := ConfirmAround(st, id, zone, overlaps, policy);
    RefusedFrame(env, st, id, SplitAround);
    InPlaceFrame(env, st, id, SplitAround, Dismissed);
    if r.ok && rems != [] {
      ReplacedFrame(env, st, id, SplitAround, pieces, r);
    }
  }

  lemma RemovedFrame(env: Env, st: State, id: nat, policy: Overnight, overlaps: seq<Row>)
    requires env.Valid() && WellFormed(st) && id in st.entries && st.entries[id].attestation == Draft
    requires forall r :: r in overlaps ==> r.id in st.entries && st.entries[r.id] == r.te && Clashes(r, id, st.entries[id].span)
    ensures var st1 := st.(entries := st.entries - IdsOf(overlaps));
            id in st1.entries && ConfirmStep(env, st, id, KeepMine, ConfirmOvernight(st1, id, env.zoneOf(st.entries[id].day), policy))
  {
    hide Minutes;
    var st1 := st.(entries := st.entries - IdsOf(overlaps));
    assert WellFormed(st1);
    OvernightFrame(env, st1, id, policy, KeepMine);
    var r := ConfirmOvernight(st1, id, env.zoneOf(st.entries[id].day), policy);
    hide ConfirmOvernight, IdsOf;
    assert forall x :: x in IdsOf(overlaps) ==> exists q :: q in overlaps && q.id == x by { IdsListed(overlaps); }
  }

  lemma IdsListed(rows: seq<Row>)
    ensures forall x :: x in IdsOf(rows) <==> exists q :: q in rows && q.id == x
  {
  }

  /** A refused confirmation leaves the ledger as it was, except that keep-mine has already deleted
      every overlapping row before the overnight policy is checked. */
  lemma RefusedConfirm(env: Env, st: State, id: nat, policy: Overnight, resolution: Resolution)
    requires env.Valid() && WellFormed(st) && !ConfirmEntry(env, st, id, policy, resolution).ok
    ensures ConfirmEntry(env, st, id, policy, resolution).st != st <==>
            id in st.entries && st.entries[id].attestation == Draft && env.hasTz && resolution == KeepMine && Contested(st, id)
    ensures forall x :: x in st.entries ==>
              (x !in ConfirmEntry(env, st, id, policy, resolution).st.entries <==>
               && id in st.entries && st.entries[id].attestation == Draft && env.hasTz && resolution == KeepMine
               && Clashes(Row(x, st.entries[x]), id, st.entries[id].span))
  {
    hide WellFormed, ConfirmStep, ConfirmOvernight, ConfirmAround, OverlapRows, IdsOf, Contested, Clashes;
    if id in st.entries && st.entries[id].attestation == Draft && env.hasTz {
      var te := st.entries[id];
      var overlaps := OverlapRows(env.listRows(st.entries), id, te.span);
      ContestedIff(env, st, id);
      OverlapsListed(env, st, id, te.span);
      OvernightFrame(env, st, id, policy, resolution);
      AroundFrame(env, st, id, overlaps, policy);
      KeepMineRemoves(env, st, id, policy);
    }
  }

  lemma KeepMineRemoves(env: Env, st: State, id: nat, policy: Overnight)
    requires env.Valid() && WellFormed(st) && id in st.entries && st.entries[id].attestation == Draft
    ensures var overlaps := OverlapRows(env.listRows(st.entries), id, st.entries[id].span);
            var st1 := st.(entries := st.entries - IdsOf(overlaps));
            && (forall x :: x in st.entries ==> (x !in st1.entries <==> Clashes(Row(x, st.entries[x]), id, st.entries[id].span)))
            && (overlaps != [] ==> st1 != st)
            && id in st1.entries
            && (!ConfirmOvernight(st1, id, env.zoneOf(st.entries[id].day), policy).ok
                ==> ConfirmOvernight(st1, id, env.zoneOf(st.entries[id].day), policy).st == st1)
  {
    var overlaps := OverlapRows(env.listRows(st.entries), id, st.entries[id].span);
    OverlapsListed(env, st, id, st.entries[id].span);
    IdsListed(overlaps);
    var st1 := st.(entries := st.entries - IdsOf(overlaps));
    assert overlaps != [] ==> overlaps[0] in overlaps && overlaps[0].id !in st1.entries;
    assert WellFormed(st1) && id in st1.entries;
    hide WellFormed, OverlapRows, ConfirmStep, ConfirmOvernight, IdsOf;
    OvernightFrame(env, st1, id, policy, KeepMine);
  }

  /** The draft proposed for a calendar event around the midnight `m`. */
  function OvernightDraft(env: Env, m: int): TimeEntry {
    var facts := Facts("google", "e1", "", "", "", "", false, Some(m - 60), Some(m + 60), "", "", "");
    ProposalOf(env, Incoming(1, facts, Accepted), None)
  }

  /** A manual entry of the half minute after it. */
  function HalfMinute(env: Env, m: int): TimeEntry {
    TimeEntry(Interval(m, m + 30), 0, env.localDay(m), None, "", Confirmed, NoSource, NoRevision, NoMethod, DEFAULT_ALLOCATION)
  }

  /** A concrete loss: an overnight draft confirmed with keep-mine but no overnight policy is refused, and
      the confirmed row it overlapped is gone. */
  lemma KeepMineLosesRow(env: Env, m: int)
    requires env.Valid() && env.hasTz && env.zoneOf(env.localDay(m - 60)).Midnight(m)
    ensures var st := State(map[], map[], map[0 := OvernightDraft(env, m), 1 := HalfMinute(env, m)], 2, map[]);
            var r := ConfirmEntry(env, st, 0, NoPolicy, KeepMine);
            WellFormed(st) && !r.ok && 1 in st.entries && 1 !in r.st.entries
  {
    var st := State(map[], map[], map[0 := OvernightDraft(env, m), 1 := HalfMinute(env, m)], 2, map[]);
    hide ConfirmEntry;
    assert Clashes(Row(1, st.entries[1]), 0, st.entries[0].span);
    assert ReachesMidnight(env.zoneOf(env.localDay(m - 60)), st.entries[0].span);
    ConfirmAcceptedIff(env, st, 0, NoPolicy, KeepMine);
    RefusedConfirm(env, st, 0, NoPolicy, KeepMine);
  }

  // ── splitting a draft ───────────────────────────────────────────────

  function SumMinutes(ivs: seq<Interval>): int {
    if |ivs| == 0 then 0 else SumMinutes(ivs[..|ivs| - 1]) + Minutes(ivs[|ivs| - 1])
  }

  predicate WholeMinutes(ivs: seq<Interval>) {
    forall i :: 0 <= i < |ivs| ==> (ivs[i].end - ivs[i].start) % 60 == 0
  }

  lemma {:induction false} CutPiecesTile(start: int, cuts: seq<int>, end: int)
    requires GoodCuts(Interval(start, end), cuts) && start < end
    ensures Tiles(CutPieces(start, cuts, end), start, end) && |CutPieces(start, cuts, end)| == |cuts| + 1
    ensures forall i :: 0 <= i < |cuts| ==> CutPieces(start, cuts, end)[i].end == cuts[i]
  {
    if |cuts| > 0 {
      var init, c := cuts[..|cuts| - 1], cuts[|cuts| - 1];
      assert GoodCuts(Interval(start, c), init) by {
        forall i | 0 <= i < |init| ensures GoodCut(Interval(start, c), init, i) { CutsAscend(start, cuts, end, i); }
      }
      assert start < c by { CutsAscend(start, cuts, end, |cuts| - 1); }
      assert GoodCut(Interval(start, end), cuts, |cuts| - 1);
      CutPiecesTile(start, init, c);
    }
  }

  lemma {:induction false} CutsAscend(start: int, cuts: seq<int>, end: int, i: nat)
    requires GoodCuts(Interval(start, end), cuts) && i < |cuts|
    ensures start < cuts[i] && (if i == 0 then start else cuts[i - 1]) < cuts[i] <= cuts[|cuts| - 1]
    ensures i < |cuts| - 1 ==> cuts[i] < cuts[|cuts| - 1]
    decreases |cuts| - i
  {
    assert GoodCut(Interval(start, end), cuts, i);
    if i < |cuts| - 1 {
      assert GoodCut(Interval(start, end), cuts, i + 1);
      CutsAscend(start, cuts, end, i + 1);
    }
    AboveStart(start, cuts, end, i);
  }

  lemma {:induction false} AboveStart(start: int, cuts: seq<int>, end: int, i: nat)
    requires GoodCuts(Interval(start, end), cuts) && i < |cuts|
    ensures start < cuts[i]
  {
    assert GoodCut(Interval(start, end), cuts, i);
    if i > 0 { AboveStart(start, cuts, end, i - 1); }
  }

  /** The minutes of a span are below the most a duration can hold. */
  predicate Counts(iv: Interval) {
    (iv.end - iv.start) / 60 <= MAX_MINUTES
  }

  /** Flooring each of n tiles loses at most n - 1 minutes, and none when all lengths are whole. It gains
      none, as long as the minutes of the whole do not saturate. */
  lemma {:induction false} FlooredSum(ivs: seq<Interval>, lo: int, hi: int)
    requires Tiles(ivs, lo, hi) && |ivs| > 0
    ensures lo <= hi && Minutes(Interval(lo, hi)) - (|ivs| - 1) <= SumMinutes(ivs)
    ensures Counts(Interval(lo, hi)) ==> SumMinutes(ivs) <= Minutes(Interval(lo, hi))
    ensures Counts(Interval(lo, hi)) && WholeMinutes(ivs) ==> (hi - lo) % 60 == 0 && SumMinutes(ivs) == Minutes(Interval(lo, hi))
  {
    if |ivs| == 1 {
      assert ivs[..0] == [];
    } else {
      var init, last := ivs[..|ivs| - 1], ivs[|ivs| - 1];
      FlooredSum(init, lo, last.start);
      FloorAdd(last.start - lo, hi - last.start);
      if WholeMinutes(ivs) {
        assert WholeMinutes(init);
        assert (hi - last.start) % 60 == 0;
      }
    }
  }

  /** Past that point minutes can be gained: cutting off the first minute of such a span gains one. */
  lemma SaturatedSplitGains(span: Interval)
    requires span.start <= span.end && !Counts(span)
    ensures GoodCuts(span, [span.start + 60])
    ensures SumMinutes(CutPieces(span.start, [span.start + 60], span.end)) == Minutes(span) + 1
  {
    var (a, b) := (Interval(span.start, span.start + 60), Interval(span.start + 60, span.end));
    assert [span.start + 60][..0] == [];
    assert CutPieces(span.start, [span.start + 60], span.end) == [a, b];
    assert [a, b][..1] == [a] && [a][..0] == [];
    assert SumMinutes([a]) == 1 && Minutes(b) == MAX_MINUTES;
  }

  lemma FloorAdd(a: nat, b: nat)
    ensures a / 60 + b / 60 <= (a + b) / 60 <= a / 60 + b / 60 + 1
    ensures a % 60 == 0 && b % 60 == 0 ==> (a + b) % 60 == 0 && (a + b) / 60 == a / 60 + b / 60
  {
  }

  /** Splitting is accepted exactly for ascending inner cuts of a draft; it dismisses the draft in
      favour of drafts that tile its span, agree with it in everything else, and together lose at most
      one floored minute per cut and gain none, as long as its minutes do not saturate. */
  lemma SplitConserves(env: Env, st: State, id: nat, cuts: seq<int>)
    requires env.Valid() && WellFormed(st)
    ensures SplitEntry(env, st, id, cuts).ok <==>
            cuts != [] && id in st.entries && st.entries[id].attestation == Draft && env.hasTz && GoodCuts(st.entries[id].span, cuts)
    ensures !SplitEntry(env, st, id, cuts).ok ==> SplitEntry(env, st, id, cuts).st == st
    ensures SplitEntry(env, st, id, cuts).ok ==>
              var (st', te, n) := (SplitEntry(env, st, id, cuts).st, st.entries[id], st.nextEntry);
              exists pieces: seq<Interval> ::
                && |pieces| == |cuts| + 1 && Tiles(pieces, te.span.start, te.span.end)
                && (forall i :: 0 <= i < |cuts| ==> pieces[i].end == cuts[i])
                && Minutes(te.span) - |cuts| <= SumMinutes(pieces)
                && (Counts(te.span) ==> SumMinutes(pieces) <= Minutes(te.span))
                && (Counts(te.span) && WholeMinutes(pieces) ==> SumMinutes(pieces) == Minutes(te.span))
                && SplitInto(st, st', id, env.zoneOf(te.day), pieces)
  {
    hide CreatePieces, CutPieces, Tiles, SumMinutes, WholeMinutes, SplitInto;
    var r := SplitEntry(env, st, id, cuts);
    if r.ok {
      var te := st.entries[id];
      AboveStart(te.span.start, cuts, te.span.end, 0);
      assert GoodCut(te.span, cuts, 0);
      hide GoodCuts;
      var pieces := CutPieces(te.span.start, cuts, te.span.end);
      CutPiecesTile(te.span.start, cuts, te.span.end);
      FlooredSum(pieces, te.span.start, te.span.end);
      SplitIntoPieces(st, id, env.zoneOf(te.day), pieces);
      assert SplitInto(st, r.st, id, env.zoneOf(te.day), pieces);
    }
  }

  lemma SplitIntoPieces(st: State, id: nat, zone: Zone, pieces: seq<Interval>)
    requires WellFormed(st) && id in st.entries
    ensures var st1 := CreatePieces(st, st.entries[id], zone, pieces, Draft);
            SplitInto(st, st1.(entries := st1.entries[id := st.entries[id].(attestation := Dismissed)]), id, zone, pieces)
  {
    assert id < st.nextEntry;
    CreatePiecesStep(st, st.entries[id], zone, pieces, Draft);
    hide WellFormed, CreatePieces, PieceOf;
  }

  ghost predicate SplitInto(st: State, st': State, id: nat, zone: Zone, pieces: seq<Interval>)
    requires id in st.entries
  {
    && st' == st.(entries := st'.entries, nextEntry := st.nextEntry + |pieces|)
    && (forall x :: x in st'.entries <==> x in st.entries || st.nextEntry <= x < st.nextEntry + |pieces|)
    && (forall x :: x in st.entries ==> st'.entries[x] == if x == id then st.entries[id].(attestation := Dismissed) else st.entries[x])
    && (forall x :: st.nextEntry <= x < st.nextEntry + |pieces| ==>
          st'.entries[x] == PieceOf(st.entries[id], zone, pieces[x - st.nextEntry], Draft))
  }
}
