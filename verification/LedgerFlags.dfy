/** What a sync asks the user: every conflict it finds ends as an open review item. */
module LedgerFlags {
  import opened Wrappers
  import opened Intervals
  import opened LedgerTypes
  import opened LedgerSpec
  import opened LedgerSteps
  import opened LedgerDrafts
  import opened LedgerSync
  import opened LedgerRuns
  import opened LedgerTheorems
  import opened LedgerIdempotence

  ghost predicate OpenFor(st: State, kind: ReviewKind, id: Identity) {
    exists rk :: rk in st.reviews && rk.kind == kind && rk.identity == id && st.reviews[rk].status == Open
  }

  /** The event overlaps a listed entry. */
  ghost predicate Meets(f: Facts, rows: seq<Row>) {
    f.start.Some? && f.end.Some? && exists r :: r in rows && Overlaps(Interval(f.start.value, f.end.value), r.te.span)
  }

  ghost predicate NewReported(rows: seq<Row>, st: State, inc: Incoming) {
    var id := IncIdentity(inc);
    && (Meets(inc.facts, rows) ==> OpenFor(st, NewInGap, id))
    && (inc.facts.allDay ==> OpenFor(st, NewInGap, id) || OpenFor(st, AllDayEvent, id))
    && (NeedsAnswer(inc.status) ==> OpenFor(st, NewInGap, id) || OpenFor(st, AllDayEvent, id) || OpenFor(st, TentativeEvent, id))
  }

  ghost predicate DriftReported(rows: seq<Row>, st: State, inc: Incoming) {
    var (id, rev) := (IncIdentity(inc), Hash(inc.facts));
    var ids := DriftedIds(rows, id, rev);
    ids != [] ==> DriftItem(st, id, DriftOf(ids, id, rev, inc.facts.title))
  }

  ghost predicate Reported(base: map<EventKey, Event>, rows: seq<Row>, st: State, inc: Incoming) {
    var k := IncKey(inc);
    && (k !in base ==> NewReported(rows, st, inc))
    && (k in base && base[k].facts != inc.facts ==> DriftReported(rows, st, inc))
  }

  lemma ReportedFrame(base: map<EventKey, Event>, rows: seq<Row>, st: State, st': State, inc: Incoming)
    requires Reported(base, rows, st, inc) && SameItemsAt(st, st', IncKey(inc))
    ensures Reported(base, rows, st', inc)
  {
    hide Meets, DriftedIds;
    forall kind | OpenFor(st, kind, IncIdentity(inc)) ensures OpenFor(st', kind, IncIdentity(inc)) {
      var rk :| rk in st.reviews && rk.kind == kind && rk.identity == IncIdentity(inc) && st.reviews[rk].status == Open;
      assert SameAt(st.reviews, st'.reviews, rk);
    }
    assert SameAt(st.reviews, st'.reviews, ReviewKey(SourceDrift, IncIdentity(inc), Drifted));
  }

  ghost predicate SameItemsAt(st: State, st': State, k: EventKey) {
    forall rk: ReviewKey :: IdentityKey(rk.identity) == k ==> SameAt(st.reviews, st'.reviews, rk)
  }

  // ── one new event ───────────────────────────────────────────────────

  lemma {:induction false} MeetsFingerprint(span: Interval, rows: seq<Row>)
    ensures GapParts(span, rows) != [] <==> exists r :: r in rows && Overlaps(span, r.te.span)
  {
    if |rows| > 0 {
      var init, last := rows[..|rows| - 1], rows[|rows| - 1];
      MeetsFingerprint(span, init);
      assert rows == init + [last];
      if GapParts(span, init) != [] {
        var r :| r in init && Overlaps(span, r.te.span);
        assert r in rows;
      }
    }
  }

  lemma OpensItem(st: State, rk: ReviewKey, k: EventKey, payload: Payload)
    requires WellFormed(st) && k in st.events && IdentityKey(rk.identity) == k && AllOpenAt(st, k)
    ensures var (st', action, n) := EnqueueOrReplay(st, rk, k, payload);
            action == NoAction && OpenFor(st', rk.kind, rk.identity)
  {
    var (st', action, n) := EnqueueOrReplay(st, rk, k, payload);
    assert rk in st'.reviews && st'.reviews[rk].status == Open;
  }

  lemma NewReportedOnce(env: Env, st: State, inc: Incoming, rows: seq<Row>)
    requires WellFormed(st) && IncKey(inc) in st.events && AllOpenAt(st, IncKey(inc))
    ensures OnNewEvent(env, st, inc, rows).Done? && NewReported(rows, OnNewEvent(env, st, inc, rows).value.0, inc)
  {
    var (k, id) := (IncKey(inc), IncIdentity(inc));
    var title := Titled(inc.facts.title);
    var parts := Fingerprint(inc.facts, rows);
    if inc.facts.start.Some? && inc.facts.end.Some? {
      MeetsFingerprint(Interval(inc.facts.start.value, inc.facts.end.value), rows);
    }
    hide WellFormed, AllOpenAt, OpenFor, GapParts, EnqueueOrReplay;
    if parts != [] {
      OpensItem(st, ReviewKey(NewInGap, id, GapPrint(parts)), k, title);
    } else if inc.facts.allDay {
      OpensItem(st, ReviewKey(AllDayEvent, id, Dates(inc.facts.startDate, inc.facts.endDate)), k, title);
    } else if NeedsAnswer(inc.status) {
      OpensItem(st, ReviewKey(TentativeEvent, id, StatusIs(inc.status)), k, title);
    }
  }

  lemma NewHandled(env: Env, st: State, inc: Incoming, rows: seq<Row>)
    requires WellFormed(st) && IncKey(inc) in st.events && AllOpenAt(st, IncKey(inc))
    ensures HandleNew(env, st, inc, rows).Done? && NewReported(rows, HandleNew(env, st, inc, rows).value.0, inc)
  {
    hide WellFormed, OnNewEvent, AllOpenAt, AutoCategorize, ItemsOpened, OpenFor, Meets;
    NewReportedOnce(env, st, inc, rows);
    var (st1, _, skip) := OnNewEvent(env, st, inc, rows).value;
    AutoCategorizeStep(env, st1, inc);
    SameOpenFor(st1, HandleNew(env, st, inc, rows).value.0);
  }

  lemma SameOpenFor(a: State, b: State)
    requires a.reviews == b.reviews
    ensures forall kind, id :: OpenFor(a, kind, id) <==> OpenFor(b, kind, id)
  {
  }

  // ── one changed event ───────────────────────────────────────────────

  ghost predicate DriftsKept(st: State, st': State) {
    forall rk: ReviewKey :: rk.kind == SourceDrift ==> SameAt(st.reviews, st'.reviews, rk)
  }

  lemma RetiredItems(st: State, st': State, k: EventKey)
    requires k in st.events && Retired(st, st', k)
    ensures st'.reviews == st.reviews
  {
  }

  lemma EnqueueKeepsDrift(st: State, rk: ReviewKey, k: EventKey, payload: Payload)
    requires WellFormed(st) && k in st.events && IdentityKey(rk.identity) == k && rk.kind != SourceDrift
    ensures var st' := EnqueueOrReplay(st, rk, k, payload).0;
            DriftsKept(st, st') && WellFormed(st') && st'.events == st.events
  {
    hide WellFormed, ReviewsKept, ReviewsElsewhere, OpenItems;
    EnqueueStep(st, rk, k, payload);
  }

  lemma EnqueueReplays(st: State, rk: ReviewKey, k: EventKey, payload: Payload)
    requires WellFormed(st) && k in st.events && IdentityKey(rk.identity) == k
    ensures var (st', action, _) := EnqueueOrReplay(st, rk, k, payload);
            && WellFormed(st') && st'.events == st.events
            && (action == if rk in st.reviews && st.reviews[rk].status != Open then st.reviews[rk].action else NoAction)
  {
    hide WellFormed, ReviewsKept, ReviewsElsewhere, OpenItems;
    EnqueueStep(st, rk, k, payload);
  }

  lemma DeclinedKeepsDrift(env: Env, st: State, inc: Incoming)
    requires env.Valid() && WellFormed(st) && IncKey(inc) in st.events && OnDeclined(env, st, inc).Done?
    ensures DriftsKept(st, OnDeclined(env, st, inc).value.0)
  {
    hide WellFormed, ApplyDeleted, EnqueueOrReplay, Retired;
    var (k, rk) := (IncKey(inc), ReviewKey(DeletedCategorized, IncIdentity(inc), WasDeclined));
    EnqueueKeepsDrift(st, rk, k, Titled(inc.facts.title));
    var (st1, action, _) := EnqueueOrReplay(st, rk, k, Titled(inc.facts.title));
    if action == DropEntry {
      DropEntryStep(env, st1, k);
      RetiredItems(st1, ApplyDeleted(env, st1, k, DropEntry).value, k);
    }
  }

  lemma ChangedHandled(env: Env, st: State, ex: Event, inc: Incoming, rows: seq<Row>)
    requires env.Valid() && WellFormed(st)
    requires IncKey(inc) in st.events && st.events[IncKey(inc)].facts == inc.facts
    ensures HandleChanged(env, st, ex, inc, rows).Done?
    ensures DriftReported(rows, HandleChanged(env, st, ex, inc, rows).value.0, inc)
  {
    hide WellFormed, ReviewsElsewhere, ReviewsKept, OpenItems, DriftedIds, LinkedAs, TitleMaterial, OnDeclined, ChangedEffect;
    HandleChangedStep(env, st, ex, inc, rows);
    DriftEffect(st, inc, rows);
    DriftFirst(st, inc, rows);
    var (st1, _) := OnConfirmedSourceDrift(st, inc, rows);
    hide OnConfirmedSourceDrift, DriftReported;
    OnChangedStep(env, st1, ex, inc);
    OnRetitledKeeps(env, st1, ex, inc);
    var (st2, _) := OnRetitled(env, st1, ex, inc);
    DeclinedKeepsDrift(env, st2, inc);
    DriftReportedFrame(rows, st1, st2, inc);
    hide OnRetitled;
    DriftReportedFrame(rows, st2, OnDeclined(env, st2, inc).value.0, inc);
  }

  lemma DriftFirst(st: State, inc: Incoming, rows: seq<Row>)
    requires WellFormed(st) && IncKey(inc) in st.events
    ensures DriftReported(rows, OnConfirmedSourceDrift(st, inc, rows).0, inc)
  {
    var (id, rev) := (IncIdentity(inc), Hash(inc.facts));
    DriftStep(st, IncKey(inc), id, DriftOf(DriftedIds(rows, id, rev), id, rev, inc.facts.title));
  }

  lemma OnRetitledKeeps(env: Env, st: State, ex: Event, inc: Incoming)
    requires WellFormed(st) && IncKey(inc) in st.events
    ensures var st' := OnRetitled(env, st, ex, inc).0;
            DriftsKept(st, st') && WellFormed(st') && st'.events == st.events
  {
    hide WellFormed, EnqueueOrReplay;
    var rk := ReviewKey(TitleChanged, IncIdentity(inc), Titles(env.normalize(ex.facts.title), env.normalize(inc.facts.title)));
    EnqueueKeepsDrift(st, rk, IncKey(inc), Renamed(ex.facts.title, inc.facts.title));
  }

  lemma DriftReportedFrame(rows: seq<Row>, st: State, st': State, inc: Incoming)
    requires DriftReported(rows, st, inc) && DriftsKept(st, st')
    ensures DriftReported(rows, st', inc)
  {
    hide DriftedIds;
    assert SameAt(st.reviews, st'.reviews, ReviewKey(SourceDrift, IncIdentity(inc), Drifted));
  }

  // ── one pulled event ────────────────────────────────────────────────

  lemma {:induction false} GrownDrifted(rows: seq<Row>, rows': seq<Row>, keys: set<EventKey>, id: Identity, rev: Revision)
    requires RowsGrown(rows, rows', keys)
    ensures DriftedIds(rows', id, rev) == DriftedIds(rows, id, rev)
    decreases |rows'|
  {
    if |rows'| > |rows| {
      assert rows'[..|rows'| - 1][..|rows|] == rows;
      GrownDrifted(rows, rows'[..|rows'| - 1], keys, id, rev);
    } else {
      assert rows' == rows;
    }
  }

  lemma GrownReported(base: map<EventKey, Event>, rows: seq<Row>, rows': seq<Row>, keys: set<EventKey>, st: State, inc: Incoming)
    requires RowsGrown(rows, rows', keys) && Reported(base, rows', st, inc)
    ensures Reported(base, rows, st, inc)
  {
    GrownDrifted(rows, rows', keys, IncIdentity(inc), Hash(inc.facts));
    hide OpenFor, DriftedIds, DriftItem;
    if Meets(inc.facts, rows) {
      var r :| r in rows && Overlaps(Interval(inc.facts.start.value, inc.facts.end.value), r.te.span);
      assert r in rows'[..|rows|];
      assert r in rows';
    }
  }

  lemma PullReports(env: Env, base: map<EventKey, Event>, inc: Incoming, s: Sync)
    requires env.Valid() && PullInv(base, s) && PullOne(env, base, inc, s).Done?
    ensures Reported(base, s.rows, PullOne(env, base, inc, s).value.st, inc)
  {
    hide PullInv, Prepared, HandleNew, HandleChanged, UpsertEvent, AllOpenAt, WellFormed, NewReported, DriftReported, Materialize;
    var st0 := UpsertEvent(s.st, inc);
    if IncKey(inc) !in base {
      StoredFirst(base, inc, s);
      PrepareNew(env, base, inc, s);
      NewHandled(env, st0, inc, s.rows);
      var (st1, flagged) := HandleNew(env, st0, inc, s.rows).value;
      MaterializedItems(env, base, inc, s, st1, flagged, false);
      NewReportedSame(s.rows, st1, PullOne(env, base, inc, s).value.st, inc);
    } else if base[IncKey(inc)].facts != inc.facts {
      StoredFirst(base, inc, s);
      PrepareChanged(env, base, inc, s);
      ChangedHandled(env, st0, base[IncKey(inc)], inc, s.rows);
      var (st1, flagged) := HandleChanged(env, st0, base[IncKey(inc)], inc, s.rows).value;
      MaterializedItems(env, base, inc, s, st1, flagged, TitleMaterial(env, base[IncKey(inc)], inc) || IncludeDropped(base[IncKey(inc)], inc));
      DriftReportedFrame(s.rows, st1, PullOne(env, base, inc, s).value.st, inc);
    }
  }

  lemma NewReportedSame(rows: seq<Row>, a: State, b: State, inc: Incoming)
    requires NewReported(rows, a, inc) && a.reviews == b.reviews
    ensures NewReported(rows, b, inc)
  {
    hide OpenFor, Meets;
    SameOpenFor(a, b);
  }

  lemma StoredFirst(base: map<EventKey, Event>, inc: Incoming, s: Sync)
    requires PullInv(base, s)
    ensures var st0 := UpsertEvent(s.st, inc);
            WellFormed(st0) && IncKey(inc) in st0.events && st0.events[IncKey(inc)].facts == inc.facts
            && (IncKey(inc) !in base ==> AllOpenAt(st0, IncKey(inc)))
  {
    UpsertStep(s.st, inc);
  }

  lemma MaterializedItems(env: Env, base: map<EventKey, Event>, inc: Incoming, s: Sync, st: State, flagged: nat, material: bool)
    requires PullInv(base, s) && Prepared(base, inc, s, st, flagged) && Materialize(env, st, inc, s.rows, material).Done?
    ensures Materialize(env, st, inc, s.rows, material).value.0.reviews == st.reviews
  {
    hide PullInv, Materialize, Tracks, EntriesStep, Proposed, WellFormed, Local, ReviewsKept, CategoriesKept, ExclusionKept, NoOldDecisions, OpenItems;
    PreparedTracks(base, inc, s, st, flagged);
    MaterializeStep(env, st, inc, s.rows, material);
  }

  // ── the pull loop ───────────────────────────────────────────────────

  ghost predicate AllReported(base: map<EventKey, Event>, rows: seq<Row>, st: State, pull: seq<Incoming>) {
    forall i :: 0 <= i < |pull| ==> Reported(base, rows, st, pull[i])
  }

  /** No event is reported twice. */
  ghost predicate DistinctKeys(pull: seq<Incoming>) {
    forall i, j :: 0 <= i < j < |pull| ==> IncKey(pull[i]) != IncKey(pull[j])
  }

  lemma PrefixKeys(init: seq<Incoming>, inc: Incoming, pull: seq<Incoming>)
    requires |pull| > 0 && init == pull[..|pull| - 1] && inc == pull[|pull| - 1] && DistinctKeys(pull)
    ensures pull == init + [inc] && DistinctKeys(init) && Keys(pull) == Keys(init) + {IncKey(inc)}
  {
    assert pull == init + [inc];
  }

  lemma {:induction false} PullsReport(env: Env, pull: seq<Incoming>, s: Sync)
    requires env.Valid() && PullInv(s.st.events, s) && DistinctKeys(pull)
    requires PullAll(env, s.st.events, pull, s).Done?
    ensures var s' := PullAll(env, s.st.events, pull, s).value;
            AllReported(s.st.events, s.rows, s'.st, pull) && RowsGrown(s.rows, s'.rows, Keys(pull))
  {
    hide PullInv, PullsEffect, PullEffect, Proposals, PullOne, Reported, Evolved, Grew, DistinctKeys, RowsGrown, AllReported;
    if |pull| == 0 {
      NothingReported(s, pull);
    } else {
      var base := s.st.events;
      var init, inc := pull[..|pull| - 1], pull[|pull| - 1];
      PrefixKeys(init, inc, pull);
      PullsReport(env, init, s);
      var mid := PullAll(env, base, init, s).value;
      PullAllStep(env, base, init, s);
      PullOneStep(env, base, inc, mid);
      var s' := PullOne(env, base, inc, mid).value;
      PullReports(env, base, inc, mid);
      GrownReported(base, s.rows, mid.rows, Keys(init), s'.st, inc);
      PullEvolved(env, base, inc, mid, s');
      RowsGrownStep(env, base, s.rows, inc, mid, s', Keys(init));
      ReportStep(env, base, init, inc, s.rows, mid, s');
    }
  }

  lemma NothingReported(s: Sync, pull: seq<Incoming>)
    requires pull == []
    ensures AllReported(s.st.events, s.rows, s.st, pull) && RowsGrown(s.rows, s.rows, Keys(pull))
  {
  }

  lemma ReportStep(env: Env, base: map<EventKey, Event>, init: seq<Incoming>, inc: Incoming, rows: seq<Row>, mid: Sync, s': Sync)
    requires DistinctKeys(init + [inc]) && AllReported(base, rows, mid.st, init)
    requires PullEffect(env, base, inc, mid, s') && Reported(base, rows, s'.st, inc)
    ensures AllReported(base, rows, s'.st, init + [inc])
  {
    LocalFrames(mid.st, s'.st, IncKey(inc), SlotOf(inc.facts));
    hide PullEffect, Reported, Evolved;
    var pull := init + [inc];
    forall i | 0 <= i < |pull| ensures Reported(base, rows, s'.st, pull[i]) {
      if i < |init| {
        assert init[i] == pull[i] && inc == pull[|init|];
        assert KeyFrame(mid.st, s'.st, IncKey(init[i]));
        ReportedFrame(base, rows, mid.st, s'.st, init[i]);
      }
    }
  }

  // ── the whole sync ──────────────────────────────────────────────────

  lemma ReportedAtEnd(env: Env, st: State, pull: seq<Incoming>, inc: Incoming)
    requires env.Valid() && WellFormed(st) && DistinctKeys(pull) && SyncEvents(env, st, pull).Done? && inc in pull
    ensures Reported(st.events, env.listRows(st.entries), SyncEvents(env, st, pull).value.0, inc)
  {
    hide PullInv, PullsEffect, Proposals, SyncEvents, Reported, DistinctKeys, WellFormed, RowsGrown, PullAll;
    var s1, s2 := SyncRuns(env, st, pull);
    StartInv(env, st);
    PullsReport(env, pull, Start(env, st));
    var i :| 0 <= i < |pull| && pull[i] == inc;
    assert Reported(st.events, env.listRows(st.entries), s1.st, pull[i]);
    assert IncKey(inc) in Keys(pull);
    assert IncKey(inc) !in GoneKeys(Keys(pull), BaseEvents(env, st.events));
    assert KeyFrame(s1.st, s2.st, IncKey(inc));
    ReportedFrame(st.events, env.listRows(st.entries), s1.st, s2.st, inc);
  }

  /** No silent conflict: a new event that overlaps an entry ends the sync with an open item that says
      so, and an all-day or unanswered one with an open item of some kind, whatever was decided before. */
  lemma NewConflictsAreFlagged(env: Env, st: State, pull: seq<Incoming>, inc: Incoming)
    requires env.Valid() && WellFormed(st) && DistinctKeys(pull) && SyncEvents(env, st, pull).Done?
    requires inc in pull && IncKey(inc) !in st.events
    ensures var (st', id) := (SyncEvents(env, st, pull).value.0, IncIdentity(inc));
            && ((inc.facts.start.Some? && inc.facts.end.Some?
                 && exists x :: x in st.entries && Overlaps(Interval(inc.facts.start.value, inc.facts.end.value), st.entries[x].span))
                ==> OpenFor(st', NewInGap, id))
            && (inc.facts.allDay ==> OpenFor(st', NewInGap, id) || OpenFor(st', AllDayEvent, id))
            && (NeedsAnswer(inc.status)
                ==> OpenFor(st', NewInGap, id) || OpenFor(st', AllDayEvent, id) || OpenFor(st', TentativeEvent, id))
  {
    hide WellFormed, DistinctKeys, SyncEvents, OpenFor;
    ReportedAtEnd(env, st, pull, inc);
    var rows := env.listRows(st.entries);
    assert Lists(rows, st.entries);
    forall x | x in st.entries ensures Row(x, st.entries[x]) in rows { }
    forall x | x in st.entries && inc.facts.start.Some? && inc.facts.end.Some?
               && Overlaps(Interval(inc.facts.start.value, inc.facts.end.value), st.entries[x].span)
      ensures Meets(inc.facts, rows)
    {
      assert Row(x, st.entries[x]) in rows;
    }
  }

  lemma {:induction false} DriftedAre(rows: seq<Row>, id: Identity, rev: Revision, x: nat)
    ensures x in DriftedIds(rows, id, rev)
       <==> exists r :: r in rows && r.id == x && r.te.attestation == Confirmed && Linked(r.te, id) && r.te.revision != rev
  {
    if |rows| > 0 {
      var init, last := rows[..|rows| - 1], rows[|rows| - 1];
      DriftedAre(init, id, rev, x);
      assert rows == init + [last];
      if x in DriftedIds(init, id, rev) {
        var r :| r in init && r.id == x && r.te.attestation == Confirmed && Linked(r.te, id) && r.te.revision != rev;
        assert r in rows;
      }
    }
  }

  predicate Lags(te: TimeEntry, inc: Incoming) {
    te.attestation == Confirmed && Linked(te, IncIdentity(inc)) && te.revision != Hash(inc.facts)
  }

  lemma LaggingIds(env: Env, st: State, inc: Incoming, x: nat)
    requires env.Valid()
    ensures x in DriftedIds(env.listRows(st.entries), IncIdentity(inc), Hash(inc.facts)) <==> x in st.entries && Lags(st.entries[x], inc)
  {
    var rows := env.listRows(st.entries);
    assert Lists(rows, st.entries);
    DriftedAre(rows, IncIdentity(inc), Hash(inc.facts), x);
    if x in st.entries && Lags(st.entries[x], inc) { assert Row(x, st.entries[x]) in rows; }
  }

  /** A pulled event that changed while confirmed rows stand at another revision ends the sync with its
      drift item open, naming exactly those rows; the rows themselves stay as they are. */
  lemma DriftIsFlagged(env: Env, st: State, pull: seq<Incoming>, inc: Incoming)
    requires env.Valid() && WellFormed(st) && DistinctKeys(pull) && SyncEvents(env, st, pull).Done?
    requires inc in pull && IncKey(inc) in st.events && st.events[IncKey(inc)].facts != inc.facts
    ensures var (st', rk) := (SyncEvents(env, st, pull).value.0, ReviewKey(SourceDrift, IncIdentity(inc), Drifted));
            (exists x :: x in st.entries && Lags(st.entries[x], inc)) ==>
              && IsOpen(st', rk)
              && st'.reviews[rk].payload.DriftOf?
              && (forall x :: x in st'.reviews[rk].payload.ids <==> x in st.entries && Lags(st.entries[x], inc))
              && (forall x :: x in st.entries && Lags(st.entries[x], inc) ==> x in st'.entries && st'.entries[x] == st.entries[x])
  {
    hide WellFormed, DistinctKeys, SyncEvents;
    ReportedAtEnd(env, st, pull, inc);
    SyncKeepsRows(env, st, pull);
    var ids := DriftedIds(env.listRows(st.entries), IncIdentity(inc), Hash(inc.facts));
    forall x ensures x in ids <==> x in st.entries && Lags(st.entries[x], inc) { LaggingIds(env, st, inc, x); }
  }

  /** Every stored event that a sync did not see and did not delete is excluded, or has its deletion put
      to the user: an item that is open or was decided otherwise than to drop or keep, or, for confirmed
      time without a category, an open drift item naming the confirmed rows. */
  lemma VanishedIsFlagged(env: Env, st: State, pull: seq<Incoming>)
    requires env.Valid() && WellFormed(st) && Unshared(st, pull) && SyncEvents(env, st, pull).Done?
    ensures var st' := SyncEvents(env, st, pull).value.0;
            forall k :: k in st'.events && k !in Keys(pull) ==>
              VanishSettled(st', st'.events[k], env.listRows(st'.entries))
  {
    var s1, s2 := SettledRuns(env, st, pull);
    assert WellFormed(s2.st) by { assert VanishInv(s2); }
    hide Unshared, SyncEvents, PulledDone, RowsGrown, PullsEffect, VanishRun, VanishedDone, VanishSettled, VanishInv;
    forall k | k in s2.st.events && k !in Keys(pull) ensures VanishSettled(s2.st, s2.st.events[k], env.listRows(s2.st.entries)) {
      VanishedStillDone(env, st, pull, s1, s2, s2.st.events[k]);
    }
  }
}
