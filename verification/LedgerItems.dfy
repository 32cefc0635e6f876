/** Exactly which review items a sync leaves about each event, and what they say. */
module LedgerItems {
  import opened Wrappers
  import opened Intervals
  import opened LedgerTypes
  import opened LedgerSpec
  import opened LedgerSteps
  import opened LedgerDrafts
  import opened LedgerSync
  import opened LedgerRuns
  import opened LedgerTheorems
  import opened LedgerIdempotence
  import opened LedgerFlags
  import opened LedgerConflicts
  import opened LedgerOutcome
  import opened LedgerForgone
  import opened LedgerSharing
  import opened LedgerCounts

  // ── picking rows from a listing ─────────────────────────────────────

  /** `at` holds the positions of the rows that satisfy the test, in listing order. */
  ghost predicate Picks(at: seq<nat>, rows: seq<Row>, test: Row -> bool) {
    && (forall i, j :: 0 <= i < j < |at| ==> at[i] < at[j])
    && (forall i :: 0 <= i < |at| ==> at[i] < |rows| && test(rows[at[i]]))
    && (forall n: nat :: n < |rows| && test(rows[n]) ==> n in at)
  }

  lemma NonePicked(at: seq<nat>, rows: seq<Row>, test: Row -> bool)
    requires rows == []
    ensures Picks(at, rows, test) <==> at == []
  {
    if at != [] { var n := at[0]; }
  }

  lemma PicksTop(at: seq<nat>, rows: seq<Row>, test: Row -> bool, i: nat)
    requires Picks(at, rows, test) && i < |at|
    ensures at[|at| - 1] < |rows| && (i < |at| - 1 ==> at[i] < at[|at| - 1])
  {
  }

  /** Without the last row, its position goes too. */
  lemma PicksInit(at: seq<nat>, rows: seq<Row>, test: Row -> bool)
    requires |rows| > 0 && Picks(at, rows, test)
    ensures test(rows[|rows| - 1]) ==> |at| > 0 && at[|at| - 1] == |rows| - 1 && Picks(at[..|at| - 1], rows[..|rows| - 1], test)
    ensures !test(rows[|rows| - 1]) ==> Picks(at, rows[..|rows| - 1], test)
  {
    var (init, n) := (rows[..|rows| - 1], |rows| - 1);
    if test(rows[n]) {
      var i :| 0 <= i < |at| && at[i] == n;
      PicksTop(at, rows, test, i);
    } else {
      forall i | 0 <= i < |at| ensures at[i] < n { assert test(rows[at[i]]); }
    }
  }

  lemma PicksPush(at: seq<nat>, init: seq<Row>, last: Row, test: Row -> bool)
    requires Picks(at, init, test)
    ensures Picks(if test(last) then at + [|init|] else at, init + [last], test)
  {
    var rows := init + [last];
    var out := if test(last) then at + [|init|] else at;
    forall n: nat | n < |rows| && test(rows[n]) ensures n in out {
      if n < |init| { assert rows[n] == init[n] && n in at; } else { assert out[|at|] == n; }
    }
  }

  // ── what a gap item says ────────────────────────────────────────────

  function Meeting(f: Facts): Row -> bool {
    (r: Row) => f.start.Some? && f.end.Some? && Overlaps(Interval(f.start.value, f.end.value), r.te.span)
  }

  /** One part for each listed row the event overlaps, in listing order: its span, category and method. */
  ghost predicate PartsOf(parts: seq<GapPart>, f: Facts, rows: seq<Row>) {
    exists at: seq<nat> :: Picks(at, rows, Meeting(f)) && |parts| == |at| && forall i :: 0 <= i < |at| ==> PartIs(parts[i], rows, at[i])
  }

  predicate PartIs(part: GapPart, rows: seq<Row>, n: nat) {
    n < |rows| && part.span == rows[n].te.span && part.category == rows[n].te.category && part.how == rows[n].te.how
  }

  lemma {:induction false} GapPartsAre(f: Facts, rows: seq<Row>)
    requires f.start.Some? && f.end.Some?
    ensures PartsOf(GapParts(Interval(f.start.value, f.end.value), rows), f, rows)
  {
    hide Picks, Overlaps;
    if |rows| == 0 {
      NonePicked([], rows, Meeting(f));
    } else {
      var init, last := rows[..|rows| - 1], rows[|rows| - 1];
      GapPartsAre(f, init);
      var parts := GapParts(Interval(f.start.value, f.end.value), init);
      var at: seq<nat> :| Picks(at, init, Meeting(f)) && |parts| == |at| && forall i :: 0 <= i < |at| ==> PartIs(parts[i], init, at[i]);
      assert rows == init + [last];
      PicksPush(at, init, last, Meeting(f));
      PartsPush(parts, at, f, init, last);
    }
  }

  lemma PartsPush(parts: seq<GapPart>, at: seq<nat>, f: Facts, init: seq<Row>, last: Row)
    requires |parts| == |at| && forall i :: 0 <= i < |at| ==> PartIs(parts[i], init, at[i])
    requires Picks(if Meeting(f)(last) then at + [|init|] else at, init + [last], Meeting(f))
    ensures PartsOf(parts + if Meeting(f)(last) then [GapPart(last.te.span, last.te.category, last.te.how)] else [], f, init + [last])
  {
    hide Picks, Overlaps;
    var more := if Meeting(f)(last) then at + [|init|] else at;
    var all := parts + if Meeting(f)(last) then [GapPart(last.te.span, last.te.category, last.te.how)] else [];
    forall i | 0 <= i < |more| ensures PartIs(all[i], init + [last], more[i]) {
      if i < |at| { assert PartIs(parts[i], init, at[i]); }
    }
  }

  lemma {:induction false} PartsUnique(parts: seq<GapPart>, at: seq<nat>, f: Facts, rows: seq<Row>)
    requires f.start.Some? && f.end.Some? && Picks(at, rows, Meeting(f)) && |parts| == |at|
    requires forall i :: 0 <= i < |at| ==> PartIs(parts[i], rows, at[i])
    ensures parts == GapParts(Interval(f.start.value, f.end.value), rows)
  {
    if |rows| == 0 {
      NonePicked(at, rows, Meeting(f));
    } else {
      PicksInit(at, rows, Meeting(f));
      var (init, last) := (rows[..|rows| - 1], rows[|rows| - 1]);
      if Meeting(f)(last) {
        PartsUnique(parts[..|at| - 1], at[..|at| - 1], f, init);
        assert PartIs(parts[|at| - 1], rows, |rows| - 1);
        assert parts == parts[..|at| - 1] + [parts[|at| - 1]];
      } else {
        forall i | 0 <= i < |at| ensures PartIs(parts[i], init, at[i]) { assert PartIs(parts[i], rows, at[i]); }
        PartsUnique(parts, at, f, init);
      }
    }
  }

  // ── a new event ─────────────────────────────────────────────────────

  /** The one item a new event asks for: the filled gap it meets, else that it lasts all day, else that it is
      unanswered; and none for any other event. */
  ghost predicate AsksFor(rows: seq<Row>, inc: Incoming, rk: ReviewKey) {
    && rk.identity == IncIdentity(inc)
    && if exists r :: r in rows && Meeting(inc.facts)(r) then
         rk.kind == NewInGap && rk.detail.GapPrint? && PartsOf(rk.detail.parts, inc.facts, rows)
       else if inc.facts.allDay then rk.kind == AllDayEvent && rk.detail == Dates(inc.facts.startDate, inc.facts.endDate)
       else if inc.status == Tentative || inc.status == NeedsAction then rk.kind == TentativeEvent && rk.detail == StatusIs(inc.status)
       else false
  }

  function AskedKey(rows: seq<Row>, inc: Incoming): Option<ReviewKey> {
    var (id, parts) := (IncIdentity(inc), Fingerprint(inc.facts, rows));
    if parts != [] then Some(ReviewKey(NewInGap, id, GapPrint(parts)))
    else if inc.facts.allDay then Some(ReviewKey(AllDayEvent, id, Dates(inc.facts.startDate, inc.facts.endDate)))
    else if NeedsAnswer(inc.status) then Some(ReviewKey(TentativeEvent, id, StatusIs(inc.status)))
    else None
  }

  lemma AskedIs(rows: seq<Row>, inc: Incoming, rk: ReviewKey)
    ensures AsksFor(rows, inc, rk) <==> AskedKey(rows, inc) == Some(rk)
  {
    var f := inc.facts;
    hide Picks, Overlaps;
    if f.start.Some? && f.end.Some? {
      MeetsFingerprint(Interval(f.start.value, f.end.value), rows);
      GapPartsAre(f, rows);
      if rk.detail.GapPrint? && PartsOf(rk.detail.parts, f, rows) {
        var at: seq<nat> :| Picks(at, rows, Meeting(f)) && |rk.detail.parts| == |at|
                            && forall i :: 0 <= i < |at| ==> PartIs(rk.detail.parts[i], rows, at[i]);
        PartsUnique(rk.detail.parts, at, f, rows);
      }
    }
  }

  /** The items about one event are exactly the ones asked for, all open. */
  ghost predicate OnlyAsked(st: State, rows: seq<Row>, inc: Incoming) {
    forall rk: ReviewKey :: IdentityKey(rk.identity) == IncKey(inc) ==>
      && (rk in st.reviews <==> AsksFor(rows, inc, rk))
      && (rk in st.reviews ==> st.reviews[rk] == Review(IncKey(inc), Titled(inc.facts.title), Open, NoAction))
  }

  ghost predicate NoItems(st: State, k: EventKey) {
    forall rk: ReviewKey :: IdentityKey(rk.identity) == k ==> rk !in st.reviews
  }

  lemma NewEventAsks(env: Env, st: State, inc: Incoming, rows: seq<Row>)
    requires NoItems(st, IncKey(inc))
    ensures OnNewEvent(env, st, inc, rows).Done? && OnlyAsked(OnNewEvent(env, st, inc, rows).value.0, rows, inc)
  {
    hide Fingerprint, Apply, AsksFor;
    forall rk: ReviewKey ensures AsksFor(rows, inc, rk) <==> AskedKey(rows, inc) == Some(rk) { AskedIs(rows, inc, rk); }
  }

  lemma NewAsks(env: Env, base: map<EventKey, Event>, inc: Incoming, s: Sync)
    requires env.Valid() && PullInv(base, s) && IncKey(inc) !in base && IncKey(inc) !in s.st.events
    requires PullOne(env, base, inc, s).Done?
    ensures OnlyAsked(PullOne(env, base, inc, s).value.st, s.rows, inc)
  {
    hide PullInv, Prepared, HandleNew, OnNewEvent, AllOpenAt, WellFormed, Materialize, OnlyAsked;
    var st0 := UpsertEvent(s.st, inc);
    NewHasNone(base, inc, s);
    NewEventAsks(env, st0, inc, s.rows);
    PrepareNew(env, base, inc, s);
    var (st1, flagged) := HandleNew(env, st0, inc, s.rows).value;
    NewHandledItems(env, st0, inc, s.rows);
    MaterializedItems(env, base, inc, s, st1, flagged, false);
    SameAsked(OnNewEvent(env, st0, inc, s.rows).value.0, st1, s.rows, inc);
    SameAsked(st1, PullOne(env, base, inc, s).value.st, s.rows, inc);
  }

  lemma NewHasNone(base: map<EventKey, Event>, inc: Incoming, s: Sync)
    requires PullInv(base, s) && IncKey(inc) !in s.st.events
    ensures NoItems(UpsertEvent(s.st, inc), IncKey(inc))
  {
  }

  lemma NewHandledItems(env: Env, st: State, inc: Incoming, rows: seq<Row>)
    requires HandleNew(env, st, inc, rows).Done?
    ensures OnNewEvent(env, st, inc, rows).Done?
    ensures HandleNew(env, st, inc, rows).value.0.reviews == OnNewEvent(env, st, inc, rows).value.0.reviews
  {
    hide OnNewEvent, AutoCategorize;
    AutoCategorizeStep(env, OnNewEvent(env, st, inc, rows).value.0, inc);
  }

  lemma SameAsked(a: State, b: State, rows: seq<Row>, inc: Incoming)
    requires OnlyAsked(a, rows, inc) && b.reviews == a.reviews
    ensures OnlyAsked(b, rows, inc)
  {
    hide AsksFor;
  }

  // ── one event of a pull ─────────────────────────────────────────────

  /** The step that handles event `i` of a pull: no other event of the pull concerns its row, items and entries. */
  lemma {:induction false} HandledAt(env: Env, pull: seq<Incoming>, s: Sync, i: nat) returns (mid: Sync, next: Sync)
    requires env.Valid() && PullInv(s.st.events, s) && DistinctKeys(pull) && i < |pull|
    requires PullAll(env, s.st.events, pull, s).Done?
    ensures PullOne(env, s.st.events, pull[i], mid) == Done(next)
    ensures PullInv(s.st.events, mid) && RowsGrown(s.rows, mid.rows, Keys(pull[..i])) && Evolved(s.st, mid.st)
    ensures KeyFrame(s.st, mid.st, IncKey(pull[i])) && KeyFrame(next.st, PullAll(env, s.st.events, pull, s).value.st, IncKey(pull[i]))
  {
    hide PullInv, PullsEffect, PullEffect, Proposals, PullOne, Evolved, Grew, DistinctKeys, RowsGrown, KeyFrame;
    var base := s.st.events;
    var init, inc := pull[..|pull| - 1], pull[|pull| - 1];
    PrefixKeys(init, inc, pull);
    PullAllStep(env, base, init, s);
    var before := PullAll(env, base, init, s).value;
    PullOneStep(env, base, inc, before);
    var last := PullOne(env, base, inc, before).value;
    LastKey(init, inc);
    if i == |pull| - 1 {
      mid, next := before, last;
      KeyOutside(init, inc, s, mid);
      PullsReport(env, init, s);
      PullsEvolved(base, init, s, mid);
      SelfFrame(last.st, IncKey(inc));
    } else {
      mid, next := HandledAt(env, init, s, i);
      assert init[..i] == pull[..i] && init[i] == pull[i];
      assert IncKey(pull[i]) in Keys(init);
      StepFrame(env, base, inc, before, last, IncKey(pull[i]));
      KeyFrameTrans(next.st, before.st, last.st, IncKey(pull[i]));
    }
  }

  lemma SelfFrame(st: State, k: EventKey)
    ensures KeyFrame(st, st, k)
  {
  }

  lemma PullsEvolved(base: map<EventKey, Event>, pull: seq<Incoming>, s: Sync, s': Sync)
    requires PullsEffect(base, pull, s, s')
    ensures Evolved(s.st, s'.st)
  {
    hide Evolved, Framed, Fated, OpenItems, ReviewsKept, ExclusionKept;
  }

  lemma StepFrame(env: Env, base: map<EventKey, Event>, inc: Incoming, s: Sync, s': Sync, k: EventKey)
    requires PullEffect(env, base, inc, s, s') && k != IncKey(inc)
    ensures KeyFrame(s.st, s'.st, k)
  {
    LocalFrames(s.st, s'.st, IncKey(inc), SlotOf(inc.facts));
  }

  lemma SeenFrame(seen: set<EventKey>, gone: seq<Event>, s1: Sync, s2: Sync, k: EventKey)
    requires VanishRun(seen, gone, s1, s2) && k in seen
    ensures KeyFrame(s1.st, s2.st, k)
  {
  }

  /** One event of a pull, from the ledger before the sync to the one after it. */
  lemma HandledWithin(env: Env, st: State, pull: seq<Incoming>, inc: Incoming) returns (mid: Sync, next: Sync)
    requires env.Valid() && WellFormed(st) && DistinctKeys(pull) && SyncEvents(env, st, pull).Done? && inc in pull
    ensures PullOne(env, st.events, inc, mid) == Done(next) && PullInv(st.events, mid)
    ensures RowsGrown(env.listRows(st.entries), mid.rows, Keys(pull) - {IncKey(inc)}) && Evolved(st, mid.st)
    ensures KeyFrame(st, mid.st, IncKey(inc)) && KeyFrame(next.st, SyncEvents(env, st, pull).value.0, IncKey(inc))
  {
    hide PullInv, PullsEffect, Proposals, VanishRun, SyncEvents, PullAll, WellFormed, RowsGrown, DistinctKeys, KeyFrame, PullOne, Evolved;
    var s1, s2 := SyncRuns(env, st, pull);
    StartInv(env, st);
    var i :| 0 <= i < |pull| && pull[i] == inc;
    mid, next := HandledAt(env, pull, Start(env, st), i);
    EarlierKeys(pull, i);
    GrownMore(env.listRows(st.entries), mid.rows, Keys(pull[..i]), Keys(pull) - {IncKey(inc)});
    SeenFrame(Keys(pull), BaseEvents(env, st.events), s1, s2, IncKey(inc));
    KeyFrameTrans(next.st, s1.st, s2.st, IncKey(inc));
  }

  lemma EarlierKeys(pull: seq<Incoming>, i: nat)
    requires DistinctKeys(pull) && i < |pull|
    ensures IncKey(pull[i]) in Keys(pull) && Keys(pull[..i]) <= Keys(pull) - {IncKey(pull[i])}
  {
  }

  lemma GrownMore(rows: seq<Row>, rows': seq<Row>, keys: set<EventKey>, more: set<EventKey>)
    requires RowsGrown(rows, rows', keys) && keys <= more
    ensures RowsGrown(rows, rows', more)
  {
  }

  /** After a sync, the review items about an event that is new to the ledger are exactly the one it asks for,
      open and titled, or none. It is compared with the rows listed before the sync, and with the drafts that
      the sync has proposed for other events by then. */
  lemma NewItemsExactly(env: Env, st: State, pull: seq<Incoming>, inc: Incoming) returns (rows: seq<Row>)
    requires env.Valid() && WellFormed(st) && DistinctKeys(pull) && SyncEvents(env, st, pull).Done?
    requires inc in pull && IncKey(inc) !in st.events
    ensures RowsGrown(env.listRows(st.entries), rows, Keys(pull) - {IncKey(inc)})
    ensures OnlyAsked(SyncEvents(env, st, pull).value.0, rows, inc)
  {
    hide WellFormed, DistinctKeys, SyncEvents, PullInv, PullOne, OnlyAsked, RowsGrown, Evolved;
    var mid, next := HandledWithin(env, st, pull, inc);
    assert SameAt(st.events, mid.st.events, IncKey(inc));
    hide KeyFrame;
    NewAsks(env, st.events, inc, mid);
    rows := mid.rows;
    AskedFrame(next.st, SyncEvents(env, st, pull).value.0, rows, inc);
  }

  lemma AskedFrame(a: State, b: State, rows: seq<Row>, inc: Incoming)
    requires OnlyAsked(a, rows, inc) && KeyFrame(a, b, IncKey(inc))
    ensures OnlyAsked(b, rows, inc)
  {
    hide AsksFor;
    forall rk: ReviewKey | IdentityKey(rk.identity) == IncKey(inc) ensures SameAt(a.reviews, b.reviews, rk) {}
  }

  // ── a changed event ─────────────────────────────────────────────────

  /** The ids are those of the rows that satisfy the test, in listing order. */
  ghost predicate Names(ids: seq<nat>, rows: seq<Row>, test: Row -> bool) {
    exists at: seq<nat> :: Picks(at, rows, test) && |ids| == |at| && forall i :: 0 <= i < |at| ==> IdIs(ids[i], rows, at[i])
  }

  predicate IdIs(id: nat, rows: seq<Row>, n: nat) {
    n < |rows| && id == rows[n].id
  }

  function Lagging(inc: Incoming): Row -> bool {
    (r: Row) => Lags(r.te, inc)
  }

  lemma NamesPush(ids: seq<nat>, init: seq<Row>, last: Row, test: Row -> bool)
    requires Names(ids, init, test)
    ensures Names(ids + if test(last) then [last.id] else [], init + [last], test)
  {
    hide Picks;
    var at: seq<nat> :| Picks(at, init, test) && |ids| == |at| && forall i :: 0 <= i < |at| ==> IdIs(ids[i], init, at[i]);
    PicksPush(at, init, last, test);
    if test(last) {
      IdsPush(ids, at, init, last);
    } else {
      IdsKept(ids, at, init, last);
      assert ids + [] == ids;
    }
  }

  lemma IdsPush(ids: seq<nat>, at: seq<nat>, init: seq<Row>, last: Row)
    requires |ids| == |at| && forall i :: 0 <= i < |at| ==> IdIs(ids[i], init, at[i])
    ensures var (all, more) := (ids + [last.id], at + [|init|]); forall i :: 0 <= i < |more| ==> IdIs(all[i], init + [last], more[i])
  {
    forall i | 0 <= i < |at| + 1 ensures IdIs((ids + [last.id])[i], init + [last], (at + [|init|])[i]) {
      if i < |at| { assert IdIs(ids[i], init, at[i]); }
    }
  }

  lemma IdsKept(ids: seq<nat>, at: seq<nat>, init: seq<Row>, last: Row)
    requires |ids| == |at| && forall i :: 0 <= i < |at| ==> IdIs(ids[i], init, at[i])
    ensures forall i :: 0 <= i < |at| ==> IdIs(ids[i], init + [last], at[i])
  {
    forall i | 0 <= i < |at| ensures IdIs(ids[i], init + [last], at[i]) { assert IdIs(ids[i], init, at[i]); }
  }

  lemma NamesNone(rows: seq<Row>, test: Row -> bool)
    requires rows == []
    ensures Names([], rows, test)
  {
    NonePicked([], rows, test);
  }

  lemma {:induction false} DriftedNames(rows: seq<Row>, inc: Incoming)
    ensures Names(DriftedIds(rows, IncIdentity(inc), Hash(inc.facts)), rows, Lagging(inc))
  {
    if |rows| == 0 {
      NamesNone(rows, Lagging(inc));
    } else {
      var init, last := rows[..|rows| - 1], rows[|rows| - 1];
      DriftedNames(init, inc);
      NamesPush(DriftedIds(init, IncIdentity(inc), Hash(inc.facts)), init, last, Lagging(inc));
      assert rows == init + [last];
    }
  }

  function DriftKey(id: Identity): ReviewKey {
    ReviewKey(SourceDrift, id, Drifted)
  }

  /** An open drift item of the event that says this. */
  ghost predicate SaysDrift(st: State, k: EventKey, id: Identity, payload: Payload) {
    && DriftKey(id) in st.reviews && st.reviews[DriftKey(id)].status == Open
    && st.reviews[DriftKey(id)].event == k && st.reviews[DriftKey(id)].payload == payload
  }

  lemma EnqueuedDrift(st: State, k: EventKey, id: Identity, payload: Payload)
    requires WellFormed(st) && IdentityKey(id) == k
    ensures var st' := EnqueueDrift(st, k, id, payload).0;
            SaysDrift(st', k, id, payload) && forall rk :: rk != DriftKey(id) ==> SameAt(st.reviews, st'.reviews, rk)
  {
  }

  /** One changed event: the drift item says which confirmed rows lag behind, and beside it only the title and the
      declined item may have been opened. */
  ghost predicate ChangedSays(env: Env, st: State, st': State, rows: seq<Row>, ex: Event, inc: Incoming) {
    var (k, id) := (IncKey(inc), IncIdentity(inc));
    && (if exists r :: r in rows && Lagging(inc)(r) then
          exists ids :: Names(ids, rows, Lagging(inc)) && SaysDrift(st', k, id, DriftOf(ids, id, Hash(inc.facts), inc.facts.title))
        else SameAt(st.reviews, st'.reviews, DriftKey(id)))
    && (forall rk: ReviewKey :: IdentityKey(rk.identity) == k && rk != DriftKey(id) && rk != RetitledKey(env, ex, inc) && rk != DeclinedKey(inc)
          ==> SameAt(st.reviews, st'.reviews, rk))
  }

  lemma DeclinedElsewhere(env: Env, st: State, inc: Incoming)
    requires env.Valid() && WellFormed(st) && IncKey(inc) in st.events && OnDeclined(env, st, inc).Done?
    ensures forall rk :: rk != DeclinedKey(inc) ==> SameAt(st.reviews, OnDeclined(env, st, inc).value.0.reviews, rk)
  {
    hide WellFormed, ApplyDeleted, Retired;
    var (k, rk) := (IncKey(inc), DeclinedKey(inc));
    EnqueueReplays(st, rk, k, Titled(inc.facts.title));
    var (st1, action, _) := EnqueueOrReplay(st, rk, k, Titled(inc.facts.title));
    if action == DropEntry {
      DropEntryStep(env, st1, k);
      RetiredItems(st1, ApplyDeleted(env, st1, k, DropEntry).value, k);
    }
  }

  lemma RetitledElsewhere(env: Env, st: State, ex: Event, inc: Incoming)
    ensures forall rk :: rk != RetitledKey(env, ex, inc) ==> SameAt(st.reviews, OnRetitled(env, st, ex, inc).0.reviews, rk)
  {
  }

  lemma DriftSays(st: State, inc: Incoming, rows: seq<Row>)
    requires WellFormed(st) && IncKey(inc) in st.events
    ensures var (st', id) := (OnConfirmedSourceDrift(st, inc, rows).0, IncIdentity(inc));
            && (if exists r :: r in rows && Lagging(inc)(r) then
                  exists ids :: Names(ids, rows, Lagging(inc)) && SaysDrift(st', IncKey(inc), id, DriftOf(ids, id, Hash(inc.facts), inc.facts.title))
                else st' == st)
            && (forall rk :: rk != DriftKey(id) ==> SameAt(st.reviews, st'.reviews, rk))
  {
    hide WellFormed, EnqueueDrift, SaysDrift, Names;
    var id := IncIdentity(inc);
    var ids := DriftedIds(rows, id, Hash(inc.facts));
    DriftedNames(rows, inc);
    EnqueuedDrift(st, IncKey(inc), id, DriftOf(ids, id, Hash(inc.facts), inc.facts.title));
    LaggingIff(rows, inc);
  }

  lemma LaggingIff(rows: seq<Row>, inc: Incoming)
    ensures DriftedIds(rows, IncIdentity(inc), Hash(inc.facts)) != [] <==> exists r :: r in rows && Lagging(inc)(r)
  {
    var ids := DriftedIds(rows, IncIdentity(inc), Hash(inc.facts));
    forall x ensures x in ids <==> exists r :: r in rows && r.id == x && Lagging(inc)(r) {
      DriftedAre(rows, IncIdentity(inc), Hash(inc.facts), x);
    }
    hide DriftedIds;
    if ids != [] { assert ids[0] in ids; }
  }

  lemma ChangedSaysOnce(env: Env, st: State, ex: Event, inc: Incoming, rows: seq<Row>)
    requires env.Valid() && WellFormed(st) && IncKey(inc) in st.events && st.events[IncKey(inc)].facts == inc.facts
    ensures HandleChanged(env, st, ex, inc, rows).Done?
    ensures ChangedSays(env, st, HandleChanged(env, st, ex, inc, rows).value.0, rows, ex, inc)
  {
    hide WellFormed, ChangedEffect, OnConfirmedSourceDrift, OnRetitled, OnDeclined, RetitledKey, TitleMaterial, Categorized, LinkedAs, Names, Lags, SaysDrift, ChangedSays;
    HandleChangedStep(env, st, ex, inc, rows);
    DriftSays(st, inc, rows);
    DriftLeaves(env, st, ex, inc, rows);
    var (st1, _) := OnConfirmedSourceDrift(st, inc, rows);
    RetitledElsewhere(env, st1, ex, inc);
    OnRetitledKeeps(env, st1, ex, inc);
    var (st2, _) := OnRetitled(env, st1, ex, inc);
    var st' := HandleChanged(env, st, ex, inc, rows).value.0;
    if OnDeclined(env, st2, inc).Done? { DeclinedElsewhere(env, st2, inc); }
    forall rk | rk != RetitledKey(env, ex, inc) && rk != DeclinedKey(inc) ensures SameAt(st1.reviews, st'.reviews, rk) {
      assert SameAt(st1.reviews, st2.reviews, rk);
      assert OnDeclined(env, st2, inc).Done? ==> SameAt(st2.reviews, OnDeclined(env, st2, inc).value.0.reviews, rk);
    }
    ChangedSaysThen(env, st, st1, st', rows, ex, inc);
  }

  lemma ChangedSaysThen(env: Env, st: State, st1: State, st': State, rows: seq<Row>, ex: Event, inc: Incoming)
    requires var id := IncIdentity(inc);
             if exists r :: r in rows && Lagging(inc)(r) then
               exists ids :: Names(ids, rows, Lagging(inc)) && SaysDrift(st1, IncKey(inc), id, DriftOf(ids, id, Hash(inc.facts), inc.facts.title))
             else st1 == st
    requires forall rk :: rk != DriftKey(IncIdentity(inc)) ==> SameAt(st.reviews, st1.reviews, rk)
    requires forall rk :: rk != RetitledKey(env, ex, inc) && rk != DeclinedKey(inc) ==> SameAt(st1.reviews, st'.reviews, rk)
    ensures ChangedSays(env, st, st', rows, ex, inc)
  {
    hide Names, Lags, RetitledKey;
    DistinctItems(env, ex, inc);
    assert SameAt(st1.reviews, st'.reviews, DriftKey(IncIdentity(inc)));
    SaysFrame(st1, st', IncKey(inc), IncIdentity(inc));
    forall rk: ReviewKey | rk != DriftKey(IncIdentity(inc)) && rk != RetitledKey(env, ex, inc) && rk != DeclinedKey(inc)
      ensures SameAt(st.reviews, st'.reviews, rk)
    {
      assert SameAt(st.reviews, st1.reviews, rk) && SameAt(st1.reviews, st'.reviews, rk);
    }
  }

  lemma DistinctItems(env: Env, ex: Event, inc: Incoming)
    ensures DriftKey(IncIdentity(inc)) != RetitledKey(env, ex, inc) && DriftKey(IncIdentity(inc)) != DeclinedKey(inc)
  {
  }

  lemma SaysFrame(a: State, b: State, k: EventKey, id: Identity)
    requires SameAt(a.reviews, b.reviews, DriftKey(id))
    ensures forall payload :: SaysDrift(a, k, id, payload) <==> SaysDrift(b, k, id, payload)
  {
  }

  lemma ChangedSaysInPull(env: Env, base: map<EventKey, Event>, inc: Incoming, s: Sync)
    requires env.Valid() && PullInv(base, s) && IncKey(inc) in base && base[IncKey(inc)].facts != inc.facts
    requires PullOne(env, base, inc, s).Done?
    ensures ChangedSays(env, s.st, PullOne(env, base, inc, s).value.st, s.rows, base[IncKey(inc)], inc)
  {
    hide PullInv, Prepared, HandleChanged, UpsertEvent, AllOpenAt, WellFormed, Materialize, ChangedSays;
    var (st0, ex) := (UpsertEvent(s.st, inc), base[IncKey(inc)]);
    StoredFirst(base, inc, s);
    UpsertLeaves(s.st, inc, s.rows);
    PrepareChanged(env, base, inc, s);
    ChangedSaysOnce(env, st0, ex, inc, s.rows);
    var (st1, flagged) := HandleChanged(env, st0, ex, inc, s.rows).value;
    MaterializedItems(env, base, inc, s, st1, flagged, TitleMaterial(env, ex, inc) || IncludeDropped(ex, inc));
    SameSays(env, s.st, st0, st1, PullOne(env, base, inc, s).value.st, s.rows, ex, inc);
  }

  lemma SameSays(env: Env, a: State, a': State, b: State, b': State, rows: seq<Row>, ex: Event, inc: Incoming)
    requires ChangedSays(env, a', b, rows, ex, inc) && a.reviews == a'.reviews && b.reviews == b'.reviews
    ensures ChangedSays(env, a, b', rows, ex, inc)
  {
    hide Names, Lags, RetitledKey;
    SaysFrame(b, b', IncKey(inc), IncIdentity(inc));
  }

  lemma SaysBetween(env: Env, a: State, a': State, b: State, b': State, rows: seq<Row>, ex: Event, inc: Incoming)
    requires ChangedSays(env, a', b, rows, ex, inc) && KeyFrame(a, a', IncKey(inc)) && KeyFrame(b, b', IncKey(inc))
    ensures ChangedSays(env, a, b', rows, ex, inc)
  {
    ItemsFrame(a, a', IncKey(inc));
    ItemsFrame(b, b', IncKey(inc));
    hide KeyFrame, Names, Lags, RetitledKey;
    SaysFrame(b, b', IncKey(inc), IncIdentity(inc));
  }

  lemma ItemsFrame(a: State, b: State, k: EventKey)
    requires KeyFrame(a, b, k)
    ensures forall rk: ReviewKey :: IdentityKey(rk.identity) == k ==> SameAt(a.reviews, b.reviews, rk)
  {
  }

  /** Rows added later that do not satisfy the test are not named. */
  lemma {:induction false} NamesShrink(ids: seq<nat>, rows: seq<Row>, rows': seq<Row>, test: Row -> bool)
    requires |rows| <= |rows'| && rows'[..|rows|] == rows && Names(ids, rows', test)
    requires forall i :: |rows| <= i < |rows'| ==> !test(rows'[i])
    ensures Names(ids, rows, test)
    decreases |rows'|
  {
    if |rows'| == |rows| {
      assert rows' == rows;
    } else {
      NamesInit(ids, rows', test);
      assert rows'[..|rows'| - 1][..|rows|] == rows;
      NamesShrink(ids, rows, rows'[..|rows'| - 1], test);
    }
  }

  lemma NamesInit(ids: seq<nat>, rows: seq<Row>, test: Row -> bool)
    requires Names(ids, rows, test) && |rows| > 0 && !test(rows[|rows| - 1])
    ensures Names(ids, rows[..|rows| - 1], test)
  {
    hide Picks;
    var init := rows[..|rows| - 1];
    var at: seq<nat> :| Picks(at, rows, test) && |ids| == |at| && forall i :: 0 <= i < |at| ==> IdIs(ids[i], rows, at[i]);
    PicksInit(at, rows, test);
    PicksBelow(at, init, test);
    forall i | 0 <= i < |at| ensures IdIs(ids[i], init, at[i]) { assert IdIs(ids[i], rows, at[i]); }
  }

  lemma PicksBelow(at: seq<nat>, rows: seq<Row>, test: Row -> bool)
    requires Picks(at, rows, test)
    ensures forall i :: 0 <= i < |at| ==> at[i] < |rows|
  {
  }

  lemma SaysListed(env: Env, st: State, st': State, rows: seq<Row>, rows': seq<Row>, keys: set<EventKey>, ex: Event, inc: Incoming)
    requires ChangedSays(env, st, st', rows', ex, inc) && RowsGrown(rows, rows', keys)
    ensures ChangedSays(env, st, st', rows, ex, inc)
  {
    hide Names, SaysDrift, RetitledKey, SameAt;
    var id := IncIdentity(inc);
    forall i | |rows| <= i < |rows'| ensures !Lagging(inc)(rows'[i]) {}
    SameWitness(rows, rows', Lagging(inc));
    if exists r :: r in rows' && Lagging(inc)(r) {
      var ids :| Names(ids, rows', Lagging(inc)) && SaysDrift(st', IncKey(inc), id, DriftOf(ids, id, Hash(inc.facts), inc.facts.title));
      NamesShrink(ids, rows, rows', Lagging(inc));
    }
  }

  lemma SameWitness(rows: seq<Row>, rows': seq<Row>, test: Row -> bool)
    requires |rows| <= |rows'| && rows'[..|rows|] == rows
    requires forall i :: |rows| <= i < |rows'| ==> !test(rows'[i])
    ensures (exists r :: r in rows && test(r)) <==> (exists r :: r in rows' && test(r))
  {
    if r :| r in rows && test(r) {
      var i :| 0 <= i < |rows| && rows[i] == r;
      assert rows'[i] == r;
    }
    if r :| r in rows' && test(r) {
      var i :| 0 <= i < |rows'| && rows'[i] == r;
      assert rows[i] == r;
    }
  }

  /** After a sync, the drift item of a changed event is open and names, in listing order, the confirmed rows that
      lag behind, and the pulled revision and title; or it is as it was when none does. Its other items are as
      they were, but for the title and the declined item. */
  lemma ChangedItemsExactly(env: Env, st: State, pull: seq<Incoming>, inc: Incoming)
    requires env.Valid() && WellFormed(st) && DistinctKeys(pull) && SyncEvents(env, st, pull).Done?
    requires inc in pull && IncKey(inc) in st.events && st.events[IncKey(inc)].facts != inc.facts
    ensures ChangedSays(env, st, SyncEvents(env, st, pull).value.0, env.listRows(st.entries), st.events[IncKey(inc)], inc)
  {
    hide WellFormed, DistinctKeys, SyncEvents, PullInv, PullOne, ChangedSays, RowsGrown, Evolved, KeyFrame;
    var (ex, st') := (st.events[IncKey(inc)], SyncEvents(env, st, pull).value.0);
    var mid, next := HandledWithin(env, st, pull, inc);
    ChangedSaysInPull(env, st.events, inc, mid);
    SaysBetween(env, st, mid.st, next.st, st', mid.rows, ex, inc);
    SaysListed(env, st, st', env.listRows(st.entries), mid.rows, Keys(pull) - {IncKey(inc)}, ex, inc);
  }

  // ── a vanished event ────────────────────────────────────────────────

  function Attested(id: Identity): Row -> bool {
    (r: Row) => r.te.attestation == Confirmed && r.te.source == Calendar(id)
  }

  lemma {:induction false} ConfirmedNames(rows: seq<Row>, id: Identity)
    ensures Names(ConfirmedIds(rows, id), rows, Attested(id))
  {
    if |rows| == 0 {
      NamesNone(rows, Attested(id));
    } else {
      var init, last := rows[..|rows| - 1], rows[|rows| - 1];
      ConfirmedNames(init, id);
      NamesPush(ConfirmedIds(init, id), init, last, Attested(id));
      assert rows == init + [last];
    }
  }

  /** What is said about an event that was not pulled: while its slot is live, that it was deleted; where it is bare
      and confirmed rows are linked to it, that these rows have lost their source; and otherwise nothing. */
  ghost predicate VanishedSays(st: State, st': State, rows: seq<Row>, ev: Event, live: bool, bare: bool) {
    var (k, id) := (EvKey(ev), IdentityOf(ev.calendar, ev.facts));
    var said := if live then Some(DeletedKey(ev)) else if bare then Some(DriftKey(id)) else None;
    && (live ==> OpenedWhen(st, st', DeletedKey(ev), true, Titled(ev.facts.title), k))
    && (!live && bare ==>
          exists ids :: Names(ids, rows, Attested(id)) && SaysDrift(st', k, id, DriftOf(ids, id, DeletedRevision, ev.facts.title)))
    && (forall rk: ReviewKey :: IdentityKey(rk.identity) == k && Some(rk) != said ==> SameAt(st.reviews, st'.reviews, rk))
  }

  lemma VanishOneSays(env: Env, seen: set<EventKey>, ev: Event, s: Sync)
    requires env.Valid() && VanishInv(s) && VanishOne(env, seen, ev, s).Done? && EvKey(ev) !in seen
    requires EvKey(ev) in s.st.events && s.st.events[EvKey(ev)].facts == ev.facts
    requires EvKey(ev) in VanishOne(env, seen, ev, s).value.st.events
    ensures VanishedSays(s.st, VanishOne(env, seen, ev, s).value.st, s.rows, ev, Live(s.st, SlotOf(ev.facts)), Bare(s.st, SlotOf(ev.facts)))
  {
    assert WellFormed(s.st);
    hide VanishInv, WellFormed, OnVanishedCategorized, EnqueueDrift, Excluded, Categorized, ConfirmedIds, SaysDrift, Names;
    var id := IdentityOf(ev.calendar, ev.facts);
    if Live(s.st, SlotOf(ev.facts)) {
      DeletedSays(env, s.st, ev);
    } else if Bare(s.st, SlotOf(ev.facts)) {
      ConfirmedNames(s.rows, id);
      EnqueuedDrift(s.st, EvKey(ev), id, DeletedPayload(s.rows, ev));
    }
  }

  lemma DeletedSays(env: Env, st: State, ev: Event)
    requires env.Valid() && WellFormed(st) && EvKey(ev) in st.events && st.events[EvKey(ev)].facts == ev.facts
    requires OnVanishedCategorized(env, st, ev).Done?
    ensures var st' := OnVanishedCategorized(env, st, ev).value.0;
            OpenedWhen(st, st', DeletedKey(ev), true, Titled(ev.facts.title), EvKey(ev))
            && forall rk :: rk != DeletedKey(ev) ==> SameAt(st.reviews, st'.reviews, rk)
  {
    hide WellFormed, ApplyDeleted, Retired;
    var (k, rk) := (EvKey(ev), DeletedKey(ev));
    EnqueueReplays(st, rk, k, Titled(ev.facts.title));
    var (st1, action, _) := EnqueueOrReplay(st, rk, k, Titled(ev.facts.title));
    if action == DropEntry || action == KeepEntry {
      if action == DropEntry { DropEntryStep(env, st1, k); } else { KeepEntryStep(env, st1, k); }
      RetiredItems(st1, ApplyDeleted(env, st1, k, action).value, k);
    }
  }

  /** The step that handles the `j`-th listed event: no other one concerns its row and items. */
  lemma {:induction false} GoneAt(env: Env, seen: set<EventKey>, gone: seq<Event>, s: Sync, j: nat) returns (mid: Sync, next: Sync)
    requires env.Valid() && VanishInv(s) && Distinct(gone) && VanishAll(env, seen, gone, s).Done? && j < |gone|
    requires forall ev :: ev in gone && EvKey(ev) !in seen ==> EvKey(ev) in s.st.events && s.st.events[EvKey(ev)].facts == ev.facts
    requires EvKey(gone[j]) !in seen
    ensures VanishInv(mid) && mid.rows == s.rows && VanishOne(env, seen, gone[j], mid) == Done(next)
    ensures EvKey(gone[j]) in mid.st.events && mid.st.events[EvKey(gone[j])].facts == gone[j].facts
    ensures KeyFrame(s.st, mid.st, EvKey(gone[j])) && KeyFrame(next.st, VanishAll(env, seen, gone, s).value.st, EvKey(gone[j]))
    ensures Live(mid.st, SlotOf(gone[j].facts)) <==> Live(s.st, SlotOf(gone[j].facts)) && !Settles(s.st, seen, gone[..j], SlotOf(gone[j].facts))
    ensures Bare(mid.st, SlotOf(gone[j].facts)) <==> Bare(s.st, SlotOf(gone[j].facts))
  {
    hide VanishRun, VanishInv, VanishOne, Distinct, Live, Bare, Settles, KeyFrame, Drops, GoneKeys, DeletedBetween, LedgerSharing.Decided;
    var init, ev := gone[..|gone| - 1], gone[|gone| - 1];
    assert gone == init + [ev];
    InitDistinct(seen, init, ev);
    VanishAllStep(env, seen, init, s);
    var before := VanishAll(env, seen, init, s).value;
    if j == |gone| - 1 {
      mid, next := before, VanishOne(env, seen, ev, before).value;
      assert gone[..j] == init;
      VanishRemoves(env, seen, init, s);
      VanishDecides(env, seen, init, s);
      StillStored(seen, init, ev, s, mid);
      RunRows(seen, init, s, mid);
      VanishReady(seen, init, ev, s, mid);
      SelfFrame(next.st, EvKey(ev));
    } else {
      mid, next := GoneAt(env, seen, init, s, j);
      assert init[..j] == gone[..j] && init[j] == gone[j];
      var last := VanishOne(env, seen, ev, before).value;
      assert EvKey(init[j]) != EvKey(ev) by { DistinctLast(init, ev, j); }
      StillStored(seen, init, ev, s, before);
      InvOfRun(seen, init, s, before);
      VanishOneStep(env, seen, ev, before);
      VanishFrame(seen, ev, before, last, EvKey(init[j]));
      KeyFrameTrans(next.st, before.st, last.st, EvKey(init[j]));
    }
  }

  lemma InvOfRun(seen: set<EventKey>, gone: seq<Event>, s: Sync, mid: Sync)
    requires VanishRun(seen, gone, s, mid)
    ensures VanishInv(mid)
  {
  }

  lemma DistinctLast(init: seq<Event>, ev: Event, j: nat)
    requires Distinct(init + [ev]) && j < |init|
    ensures EvKey(init[j]) != EvKey(ev)
  {
    assert (init + [ev])[j] == init[j] && (init + [ev])[|init|] == ev;
  }

  lemma VanishFrame(seen: set<EventKey>, ev: Event, s: Sync, s': Sync, k: EventKey)
    requires VanishInv(s) && VanishEffect(seen, ev, s, s') && k != EvKey(ev)
    ensures KeyFrame(s.st, s'.st, k)
  {
    hide VanishInv, VanishEffect;
    VanishStepOf(seen, ev, s, s');
    LocalFrames(s.st, s'.st, EvKey(ev), SlotOf(ev.facts));
  }

  lemma VanishedFrame(a: State, a': State, b: State, b': State, rows: seq<Row>, ev: Event, live: bool, bare: bool)
    requires VanishedSays(a', b, rows, ev, live, bare) && KeyFrame(a, a', EvKey(ev)) && KeyFrame(b, b', EvKey(ev))
    ensures VanishedSays(a, b', rows, ev, live, bare)
  {
    ItemsFrame(a, a', EvKey(ev));
    ItemsFrame(b, b', EvKey(ev));
    hide KeyFrame, Names;
    SaysFrame(b, b', EvKey(ev), IdentityOf(ev.calendar, ev.facts));
  }

  lemma VanishedListed(st: State, st': State, rows: seq<Row>, rows': seq<Row>, keys: set<EventKey>, ev: Event, live: bool, bare: bool)
    requires VanishedSays(st, st', rows', ev, live, bare) && RowsGrown(rows, rows', keys)
    ensures VanishedSays(st, st', rows, ev, live, bare)
  {
    hide Names, SaysDrift, SameAt, OpenedWhen;
    var id := IdentityOf(ev.calendar, ev.facts);
    if !live && bare {
      var ids :| Names(ids, rows', Attested(id)) && SaysDrift(st', EvKey(ev), id, DriftOf(ids, id, DeletedRevision, ev.facts.title));
      NamesShrink(ids, rows, rows', Attested(id));
    }
  }

  /** After a sync, the review items about a stored event that was neither pulled nor deleted: while its slot is live
      when its turn comes, its deletion item is opened unless there is one; where its slot is bare, the drift item is
      open and names the confirmed rows; and every other item is as it was. */
  lemma VanishedItemsExactly(env: Env, st: State, pull: seq<Incoming>, k: EventKey) returns (j: nat)
    requires env.Valid() && WellFormed(st) && DistinctKeys(pull) && SyncEvents(env, st, pull).Done?
    requires k in st.events && k !in Keys(pull) && k in SyncEvents(env, st, pull).value.0.events
    ensures var (gone, ev) := (BaseEvents(env, st.events), st.events[k]);
            && j < |gone| && gone[j] == ev
            && VanishedSays(st, SyncEvents(env, st, pull).value.0, env.listRows(st.entries), ev,
                            LiveAfter(env, st, pull, SlotOf(ev.facts)) && !Settles(st, Keys(pull), gone[..j], SlotOf(ev.facts)),
                            !Excluded(st, SlotOf(ev.facts)) && !Supplied(env, st, pull, |pull|, SlotOf(ev.facts)))
  {
    hide WellFormed, DistinctKeys, SyncEvents, PullInv, PullsEffect, VanishRun, VanishInv, Proposals, PullAll, VanishAll, BaseEvents, Distinct, RowsGrown, Live, Bare, LiveAfter, Supplied, Settles, KeyFrame, VanishedSays, VanishOne, Excluded;
    var s1, s2 := SyncRuns(env, st, pull);
    StartInv(env, st);
    PullsReport(env, pull, Start(env, st));
    BaseListed(env, st);
    StoredForVanish(env, st, pull, s1);
    StoredKey(st, k);
    var gone, ev := BaseEvents(env, st.events), st.events[k];
    j :| 0 <= j < |gone| && gone[j] == ev;
    var mid, next := GoneAt(env, Keys(pull), gone, s1, j);
    StillThere(next.st, s2.st, k);
    VanishOneSays(env, Keys(pull), ev, mid);
    VanishedFrame(s1.st, mid.st, next.st, s2.st, s1.rows, ev, Live(mid.st, SlotOf(ev.facts)), Bare(mid.st, SlotOf(ev.facts)));
    UnpulledFrame(env, st, pull, s1, k);
    SelfFrame(s2.st, k);
    VanishedFrame(st, s1.st, s2.st, s2.st, s1.rows, ev, Live(mid.st, SlotOf(ev.facts)), Bare(mid.st, SlotOf(ev.facts)));
    VanishedListed(st, s2.st, env.listRows(st.entries), s1.rows, Keys(pull), ev, Live(mid.st, SlotOf(ev.facts)), Bare(mid.st, SlotOf(ev.facts)));
    LiveAfterPull(env, st, pull, s1, SlotOf(ev.facts));
    BareAfterPull(env, st, pull, s1, SlotOf(ev.facts));
    SettlesAtStart(env, st, pull, s1, gone[..j], SlotOf(ev.facts));
  }

  lemma StillThere(a: State, b: State, k: EventKey)
    requires KeyFrame(a, b, k) && k in b.events
    ensures k in a.events
  {
  }

  lemma UnpulledFrame(env: Env, st: State, pull: seq<Incoming>, s1: Sync, k: EventKey)
    requires PullsEffect(st.events, pull, Start(env, st), s1) && k !in Keys(pull)
    ensures KeyFrame(st, s1.st, k)
  {
    hide Evolved, ReviewsKept, ExclusionKept, Fated, OpenItems, KeyFrame, SlotFrame;
  }
}
