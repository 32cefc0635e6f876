/** The ledger invariant and the locality of every part of a sync: processing one calendar event
    touches only that event, its overlay slot, its review items and the entries linked to it. */
module LedgerSteps {
  import opened Wrappers
  import opened Intervals
  import opened LedgerTypes
  import opened LedgerSpec

  ghost predicate WellFormed(st: State) {
    && (forall k :: k in st.events ==> k == KeyOf(st.events[k].calendar, st.events[k].facts))
    && (forall id :: id in st.entries ==> id < st.nextEntry)
    && (forall rk :: rk in st.reviews ==> st.reviews[rk].event in st.events)
    && (forall rk :: rk in st.reviews ==> st.reviews[rk].event == IdentityKey(rk.identity))
  }

  function OpenItems(st: State): set<ReviewKey> {
    set rk | rk in st.reviews && st.reviews[rk].status == Open
  }

  /** How one stored entry may change during a sync: provenance stays, confirmed rows do not change at
      all, dismissed rows change at most their revision, and a draft stays a draft or is dismissed. */
  predicate EntryStep(a: TimeEntry, b: TimeEntry) {
    && b.source == a.source
    && (a.attestation == Confirmed ==> b == a)
    && (a.attestation == Dismissed ==> b == a.(revision := b.revision))
    && (b.attestation == a.attestation || (a.attestation == Draft && b.attestation == Dismissed))
  }

  predicate LinkedTo(te: TimeEntry, k: EventKey) {
    te.source.Calendar? && IdentityKey(te.source.id) == k
  }

  /** A row a sync may add for event `k`: a linked draft, or the confirmed manual copy of a kept event. */
  predicate Addition(te: TimeEntry, k: EventKey) {
    (LinkedTo(te, k) && te.attestation != Confirmed) || (te.source == NoSource && te.attestation == Confirmed)
  }

  ghost predicate EntriesStep(st: State, st': State, k: EventKey) {
    && st.nextEntry <= st'.nextEntry
    && (forall id :: id in st.entries ==> id in st'.entries)
    && (forall id :: id in st.entries ==> EntryStep(st.entries[id], st'.entries[id]))
    && (forall id :: id in st.entries && !LinkedTo(st.entries[id], k) ==> st'.entries[id] == st.entries[id])
    && (forall id :: id in st'.entries && id !in st.entries ==> st.nextEntry <= id < st'.nextEntry)
    && (forall id :: id in st'.entries && id !in st.entries ==> Addition(st'.entries[id], k))
  }

  ghost predicate SameAt<K, V>(m: map<K, V>, m': map<K, V>, k: K) {
    if k in m then k in m' && m'[k] == m[k] else k !in m'
  }

  ghost predicate EventsElsewhere(st: State, st': State, k: EventKey) {
    forall k' :: k' != k ==> SameAt(st.events, st'.events, k')
  }

  ghost predicate OverlaysElsewhere(st: State, st': State, slot: Slot) {
    forall ok: OverlayKey :: ok.slot != slot ==> SameAt(st.overlays, st'.overlays, ok)
  }

  ghost predicate ReviewsElsewhere(st: State, st': State, k: EventKey) {
    forall rk: ReviewKey :: IdentityKey(rk.identity) != k ==> SameAt(st.reviews, st'.reviews, rk)
  }

  /** A change confined to event `k` and overlay slot `slot`. */
  ghost predicate Local(st: State, st': State, k: EventKey, slot: Slot) {
    && EventsElsewhere(st, st', k)
    && OverlaysElsewhere(st, st', slot)
    && ReviewsElsewhere(st, st', k)
    && EntriesStep(st, st', k)
  }

  lemma LocalTrans(a: State, b: State, c: State, k: EventKey, slot: Slot)
    requires Local(a, b, k, slot) && Local(b, c, k, slot)
    ensures Local(a, c, k, slot)
  {
    forall k' | k' != k ensures SameAt(a.events, c.events, k') {
      assert SameAt(a.events, b.events, k') && SameAt(b.events, c.events, k');
    }
    forall ok: OverlayKey | ok.slot != slot ensures SameAt(a.overlays, c.overlays, ok) {
      assert SameAt(a.overlays, b.overlays, ok) && SameAt(b.overlays, c.overlays, ok);
    }
    forall rk: ReviewKey | IdentityKey(rk.identity) != k ensures SameAt(a.reviews, c.reviews, rk) {
      assert SameAt(a.reviews, b.reviews, rk) && SameAt(b.reviews, c.reviews, rk);
    }
  }

  /** No item is lost or closed, a closed item is never rewritten, and only source drift reopens. */
  ghost predicate ReviewsKept(st: State, st': State) {
    && ClosedKept(st, st')
    && (forall rk :: rk in st.reviews ==> rk in st'.reviews)
    && (forall rk :: rk in st.reviews && st.reviews[rk].status == Open ==> st'.reviews[rk].status == Open)
    && (forall rk :: rk in st.reviews && rk.kind != SourceDrift ==> st'.reviews[rk] == st.reviews[rk])
  }

  ghost predicate ExclusionKept(st: State, st': State) {
    forall slot :: Excluded(st, slot) ==> Excluded(st', slot)
  }

  /** A recorded decision to drop or keep the entry of a deleted or declined event of this slot. */
  ghost predicate Recorded(st: State, slot: Slot) {
    exists rk :: rk in st.reviews && rk.kind == DeletedCategorized && IdentitySlot(rk.identity) == slot
      && st.reviews[rk].status != Open && (st.reviews[rk].action == DropEntry || st.reviews[rk].action == KeepEntry)
  }

  /** A category overlay stays, unless a recorded decision is replayed, which clears the category and
      excludes the event. */
  ghost predicate CategoryFate(st: State, st': State, slot: Slot) {
    SameAt(st.overlays, st'.overlays, OverlayKey(slot, CategoryKind))
    || (Excluded(st', slot) && !Categorized(st', slot) && Recorded(st, slot))
  }

  ghost predicate CategoriesKept(st: State, st': State) {
    forall slot :: CategoryFate(st, st', slot)
  }

  /** Closed items are never made or rewritten. */
  ghost predicate ClosedKept(st: State, st': State) {
    forall rk :: rk in st'.reviews && st'.reviews[rk].status != Open ==> rk in st.reviews && st.reviews[rk] == st'.reviews[rk]
  }

  lemma CategoryFateTrans(a: State, b: State, c: State, slot: Slot)
    requires CategoryFate(a, b, slot) && CategoryFate(b, c, slot)
    requires (Excluded(b, slot) ==> Excluded(c, slot)) && ClosedKept(a, b)
    ensures CategoryFate(a, c, slot)
  {
    if Recorded(b, slot) {
      var rk :| rk in b.reviews && rk.kind == DeletedCategorized && IdentitySlot(rk.identity) == slot
        && b.reviews[rk].status != Open && (b.reviews[rk].action == DropEntry || b.reviews[rk].action == KeepEntry);
      assert rk in a.reviews;
    }
  }

  lemma CategoriesKeptTrans(a: State, b: State, c: State)
    requires CategoriesKept(a, b) && CategoriesKept(b, c) && ExclusionKept(b, c) && ReviewsKept(a, b)
    ensures CategoriesKept(a, c)
  {
    assert ClosedKept(a, b);
    hide ReviewsKept, ClosedKept, CategoryFate;
    forall slot ensures CategoryFate(a, c, slot) {
      assert CategoryFate(a, b, slot) && CategoryFate(b, c, slot);
      CategoryFateTrans(a, b, c, slot);
    }
  }

  // ── the pieces ──────────────────────────────────────────────────────

  function PutReview(st: State, rk: ReviewKey, item: Review): State {
    st.(reviews := st.reviews[rk := item])
  }

  /** Only review items of event `k` differ, none is lost, and `n` more are open. */
  ghost predicate ItemsOpened(st: State, st': State, k: EventKey, n: nat) {
    && st' == st.(reviews := st'.reviews)
    && WellFormed(st') && ReviewsElsewhere(st, st', k) && ReviewsKept(st, st')
    && |OpenItems(st')| == |OpenItems(st)| + n
  }

  predicate IsOpen(st: State, rk: ReviewKey) {
    rk in st.reviews && st.reviews[rk].status == Open
  }

  lemma PutOpenStep(st: State, rk: ReviewKey, item: Review)
    requires WellFormed(st) && item.event in st.events && IdentityKey(rk.identity) == item.event
    requires item.status == Open && (rk in st.reviews ==> rk.kind == SourceDrift)
    ensures ItemsOpened(st, PutReview(st, rk, item), item.event, if IsOpen(st, rk) then 0 else 1)
  {
    hide WellFormed, ReviewsElsewhere, ReviewsKept, OpenItems;
    PutReviewStep(st, rk, item);
    PutOpenCount(st, rk, item);
    PutKept(st, rk, item);
  }

  lemma PutKept(st: State, rk: ReviewKey, item: Review)
    requires item.status == Open && (rk in st.reviews ==> rk.kind == SourceDrift)
    ensures ReviewsKept(st, PutReview(st, rk, item))
  {
  }

  lemma PutReviewStep(st: State, rk: ReviewKey, item: Review)
    requires WellFormed(st) && item.event in st.events && IdentityKey(rk.identity) == item.event
    ensures WellFormed(PutReview(st, rk, item)) && ReviewsElsewhere(st, PutReview(st, rk, item), item.event)
  {
  }

  lemma PutOpenCount(st: State, rk: ReviewKey, item: Review)
    requires item.status == Open
    ensures |OpenItems(PutReview(st, rk, item))| == |OpenItems(st)| + if IsOpen(st, rk) then 0 else 1
  {
    var st' := PutReview(st, rk, item);
    if IsOpen(st, rk) {
      assert OpenItems(st') == OpenItems(st);
    } else {
      assert OpenItems(st') == OpenItems(st) + {rk};
    }
  }

  lemma EnqueueStep(st: State, rk: ReviewKey, k: EventKey, payload: Payload)
    requires WellFormed(st) && k in st.events && IdentityKey(rk.identity) == k
    ensures var (st', action, n) := EnqueueOrReplay(st, rk, k, payload);
            && ItemsOpened(st, st', k, n)
            && (rk in st.reviews ==> st' == st)
            && (rk !in st.reviews ==> st' == PutReview(st, rk, Review(k, payload, Open, NoAction)))
            && (action != NoAction ==> rk in st.reviews && st.reviews[rk].status != Open && st.reviews[rk].action == action)
  {
    if rk !in st.reviews {
      PutOpenStep(st, rk, Review(k, payload, Open, NoAction));
    }
  }

  lemma DriftStep(st: State, k: EventKey, id: Identity, payload: Payload)
    requires WellFormed(st) && k in st.events && IdentityKey(id) == k
    ensures var (st', n) := EnqueueDrift(st, k, id, payload);
            ItemsOpened(st, st', k, n) && DriftItem(st', id, payload)
  {
    var rk := ReviewKey(SourceDrift, id, Drifted);
    var item := if IsOpen(st, rk) then st.reviews[rk].(payload := payload) else Review(k, payload, Open, NoAction);
    assert item.event == k;
    PutOpenStep(st, rk, item);
    assert EnqueueDrift(st, k, id, payload) == (PutReview(st, rk, item), if IsOpen(st, rk) then 0 else 1);
  }

  predicate DriftItem(st: State, id: Identity, payload: Payload) {
    var rk := ReviewKey(SourceDrift, id, Drifted);
    rk in st.reviews && st.reviews[rk].status == Open && st.reviews[rk].payload == payload
  }

  /** The listing taken earlier still tells the truth up to `EntryStep`. */
  ghost predicate Tracks(rows: seq<Row>, entries: map<nat, TimeEntry>) {
    && (forall r :: r in rows ==> r.id in entries && EntryStep(r.te, entries[r.id]))
    && (forall id :: id in entries && entries[id].source.Calendar? ==> exists r :: r in rows && r.id == id)
    && (forall r, q :: r in rows && q in rows && r.id == q.id ==> r == q)
  }

  lemma ListingTracks(env: Env, st: State)
    requires env.Valid()
    ensures Tracks(env.listRows(st.entries), st.entries)
  {
    var rows := env.listRows(st.entries);
    assert Lists(rows, st.entries);
    forall id | id in st.entries ensures exists r :: r in rows && r.id == id {
      assert Row(id, st.entries[id]) in rows;
    }
  }

  lemma TracksStep(rows: seq<Row>, st: State, st': State, k: EventKey)
    requires Tracks(rows, st.entries) && EntriesStep(st, st', k)
    requires forall id :: id in st'.entries && id !in st.entries ==> !st'.entries[id].source.Calendar?
    ensures Tracks(rows, st'.entries)
  {
    forall id | id in st'.entries && st'.entries[id].source.Calendar?
      ensures exists r :: r in rows && r.id == id
    {
      assert id in st.entries && EntryStep(st.entries[id], st'.entries[id]);
    }
  }

  lemma DismissStep(st: State, rows: seq<Row>, id: Identity)
    requires WellFormed(st) && Tracks(rows, st.entries)
    ensures DismissLinked(st, rows, id).Done?
    ensures var st' := DismissLinked(st, rows, id).value;
            && WellFormed(st') && st' == st.(entries := st'.entries)
            && st'.entries.Keys == st.entries.Keys
            && EntriesStep(st, st', IdentityKey(id))
            && (forall x :: x in st'.entries && Linked(st'.entries[x], id) ==> st'.entries[x].attestation != Draft)
  {
    var ids := StaleDrafts(rows, id);
    var st' := DismissLinked(st, rows, id).value;
    forall x | x in st.entries && x in ids
      ensures Linked(st.entries[x], id) && EntryStep(st.entries[x], st'.entries[x])
    {
      var r :| r in rows && Linked(r.te, id) && r.te.attestation == Draft && r.id == x;
      assert EntryStep(r.te, st.entries[x]);
    }
    forall x | x in st'.entries && Linked(st'.entries[x], id) ensures st'.entries[x].attestation != Draft {
      var r :| r in rows && r.id == x;
      assert EntryStep(r.te, st.entries[x]);
    }
  }

  predicate Stale(r: Row, inc: Incoming) {
    Linked(r.te, IncIdentity(inc)) && r.te.attestation == Draft && r.te.revision != Hash(inc.facts)
  }

  ghost predicate Refreshed(st: State, st': State, inc: Incoming, rows: seq<Row>, x: nat)
    requires x in st.entries && x in st'.entries
  {
    && (exists r :: r in rows && r.id == x && Stale(r, inc))
    && st.entries[x].attestation == Draft && st'.entries[x].attestation == Draft
    && st'.entries[x].source == st.entries[x].source && st'.entries[x].revision == Hash(inc.facts)
  }

  lemma {:induction false} RefreshStep(env: Env, st: State, inc: Incoming, rows: seq<Row>)
    requires WellFormed(st) && Timed(inc.facts)
    requires RefreshAll(env, st, inc, rows).Done?
    ensures var st' := RefreshAll(env, st, inc, rows).value;
            && WellFormed(st') && st' == st.(entries := st'.entries)
            && st'.entries.Keys == st.entries.Keys
            && (forall x :: x in st.entries && st'.entries[x] != st.entries[x] ==> Refreshed(st, st', inc, rows, x))
            && (forall r :: r in rows && Stale(r, inc) ==> r.id in st'.entries && st'.entries[r.id].revision == Hash(inc.facts))
  {
    if |rows| > 0 {
      var init, last := rows[..|rows| - 1], rows[|rows| - 1];
      RefreshStep(env, st, inc, init);
      assert rows == init + [last];
      var mid := RefreshAll(env, st, inc, init).value;
      var st' := RefreshAll(env, st, inc, rows).value;
      assert RefreshOne(env, mid, inc, last) == Done(st');
      forall x | x in st.entries && st'.entries[x] != st.entries[x] ensures Refreshed(st, st', inc, rows, x) {
        if x == last.id && st'.entries[x] != mid.entries[x] {
          assert last in rows;
        } else {
          assert Refreshed(st, mid, inc, init, x);
        }
      }
    }
  }

  // ── overlays, decisions and drafts ──────────────────────────────────

  /** Only the overlays of one slot differ. */
  ghost predicate OverlayOnly(st: State, st': State, slot: Slot) {
    st' == st.(overlays := st'.overlays) && OverlaysElsewhere(st, st', slot)
  }

  lemma AutoCategorizeStep(env: Env, st: State, inc: Incoming)
    ensures var st' := AutoCategorize(env, st, inc);
            && OverlayOnly(st, st', SlotOf(inc.facts))
            && SameAt(st.overlays, st'.overlays, OverlayKey(SlotOf(inc.facts), StatusKind))
  {
  }

  lemma OverlayOnlyLocal(st: State, st': State, k: EventKey, slot: Slot)
    requires WellFormed(st) && OverlayOnly(st, st', slot)
    ensures WellFormed(st') && Local(st, st', k, slot)
  {
  }

  lemma ManualCopyStep(env: Env, st: State, ev: Event, k: EventKey)
    requires WellFormed(st) && ConvertToManual(env, st, ev).Done?
    ensures var st' := ConvertToManual(env, st, ev).value;
            && WellFormed(st') && Local(st, st', k, SlotOf(ev.facts))
            && st' == st.(entries := st'.entries, nextEntry := st'.nextEntry, overlays := st'.overlays)
            && (forall x :: x in st'.entries && st'.entries[x].source.Calendar? ==> x in st.entries && st'.entries[x] == st.entries[x])
            && !Categorized(st', SlotOf(ev.facts)) && ExclusionKept(st, st')
  {
  }

  /** Dropping or keeping a deleted event soft-rejects its drafts, clears its category and excludes it. */
  ghost predicate Retired(st: State, st': State, k: EventKey)
    requires k in st.events
  {
    var ev := st.events[k];
    && WellFormed(st') && Local(st, st', k, SlotOf(ev.facts))
    && st'.events == st.events && st'.reviews == st.reviews
    && Excluded(st', SlotOf(ev.facts)) && !Categorized(st', SlotOf(ev.facts)) && ExclusionKept(st, st')
    && (forall x :: x in st'.entries && st'.entries[x].source.Calendar? ==> x in st.entries)
    && (forall x :: x in st'.entries && Linked(st'.entries[x], IdentityOf(ev.calendar, ev.facts)) ==> st'.entries[x].attestation != Draft)
  }

  lemma EventKeyed(st: State, k: EventKey)
    requires WellFormed(st) && k in st.events
    ensures IdentityKey(IdentityOf(st.events[k].calendar, st.events[k].facts)) == k
  {
  }

  /** Soft-rejecting the drafts of a stored event is local to it and leaves it without a live draft. */
  lemma DismissDraftsStep(env: Env, st: State, k: EventKey) returns (st': State)
    requires env.Valid() && WellFormed(st) && k in st.events
    ensures var (ev, id) := (st.events[k], IdentityOf(st.events[k].calendar, st.events[k].facts));
            && DismissDraftsOf(env, st, id) == Done(st')
            && WellFormed(st') && Local(st, st', k, SlotOf(ev.facts))
            && st' == st.(entries := st'.entries) && st'.entries.Keys == st.entries.Keys
            && (forall x :: x in st'.entries && Linked(st'.entries[x], id) ==> st'.entries[x].attestation != Draft)
  {
    hide WellFormed, Tracks, EntriesStep, DismissLinked;
    var id := IdentityOf(st.events[k].calendar, st.events[k].facts);
    EventKeyed(st, k);
    ListingTracks(env, st);
    DismissStep(st, env.listRows(st.entries), id);
    st' := DismissDraftsOf(env, st, id).value;
  }

  lemma DropEntryStep(env: Env, st: State, k: EventKey)
    requires env.Valid() && WellFormed(st) && k in st.events
    ensures ApplyDeleted(env, st, k, DropEntry).Done?
    ensures var st' := ApplyDeleted(env, st, k, DropEntry).value;
            Retired(st, st', k) && st'.entries.Keys == st.entries.Keys && st'.nextEntry == st.nextEntry
  {
    hide WellFormed, Local, DismissDraftsOf;
    var slot := SlotOf(st.events[k].facts);
    var st1 := DismissDraftsStep(env, st, k);
    var st2 := MarkExcluded(DropOverlay(st1, slot, CategoryKind), slot);
    OverlayOnlyLocal(st1, st2, k, slot);
    LocalTrans(st, st1, st2, k, slot);
  }

  lemma KeepEntryStep(env: Env, st: State, k: EventKey)
    requires env.Valid() && WellFormed(st) && k in st.events
    requires ApplyDeleted(env, st, k, KeepEntry).Done?
    ensures Retired(st, ApplyDeleted(env, st, k, KeepEntry).value, k)
  {
    hide WellFormed, Local, DismissDraftsOf, ConvertToManual;
    var ev := st.events[k];
    var slot := SlotOf(ev.facts);
    var st1 := DismissDraftsStep(env, st, k);
    ManualCopyStep(env, st1, ev, k);
    var st2 := ConvertToManual(env, st1, ev).value;
    var st3 := MarkExcluded(st2, slot);
    OverlayOnlyLocal(st2, st3, k, slot);
    LocalTrans(st, st1, st2, k, slot);
    LocalTrans(st, st2, st3, k, slot);
    forall s | Excluded(st, s) ensures Excluded(st3, s) {
      assert Excluded(st1, s) && Excluded(st2, s);
    }
  }

  ghost predicate AllOpenAt(st: State, k: EventKey) {
    forall rk :: rk in st.reviews && IdentityKey(rk.identity) == k ==> st.reviews[rk].status == Open
  }

  /** Recorded decisions are never replayed for a new event: its row is new, so every review item of
      its identity was opened by this very sync. */
  lemma OnNewEventNeverReplays(env: Env, st: State, inc: Incoming, rows: seq<Row>)
    requires WellFormed(st) && IncKey(inc) in st.events && AllOpenAt(st, IncKey(inc))
    ensures OnNewEvent(env, st, inc, rows).Done?
    ensures var (st', n, skipAuto) := OnNewEvent(env, st, inc, rows).value;
            && !skipAuto && n <= 1 && ItemsOpened(st, st', IncKey(inc), n) && AllOpenAt(st', IncKey(inc))
  {
    var (k, id) := (IncKey(inc), IncIdentity(inc));
    var title := Titled(inc.facts.title);
    if Fingerprint(inc.facts, rows) != [] {
      EnqueueOpenStep(st, ReviewKey(NewInGap, id, GapPrint(Fingerprint(inc.facts, rows))), k, title);
    } else if inc.facts.allDay {
      EnqueueOpenStep(st, ReviewKey(AllDayEvent, id, Dates(inc.facts.startDate, inc.facts.endDate)), k, title);
    } else if NeedsAnswer(inc.status) {
      EnqueueOpenStep(st, ReviewKey(TentativeEvent, id, StatusIs(inc.status)), k, title);
    }
  }

  lemma EnqueueOpenStep(st: State, rk: ReviewKey, k: EventKey, payload: Payload)
    requires WellFormed(st) && k in st.events && IdentityKey(rk.identity) == k && AllOpenAt(st, k)
    ensures var (st', action, n) := EnqueueOrReplay(st, rk, k, payload);
            && action == NoAction && n <= 1 && ItemsOpened(st, st', k, n) && AllOpenAt(st', k)
  {
    EnqueueStep(st, rk, k, payload);
  }

  lemma HandleNewStep(env: Env, st: State, inc: Incoming, rows: seq<Row>)
    requires WellFormed(st) && IncKey(inc) in st.events && AllOpenAt(st, IncKey(inc))
    ensures HandleNew(env, st, inc, rows).Done?
    ensures var (st', n) := HandleNew(env, st, inc, rows).value;
            && WellFormed(st') && Local(st, st', IncKey(inc), SlotOf(inc.facts))
            && st' == st.(reviews := st'.reviews, overlays := st'.overlays)
            && ReviewsKept(st, st') && AllOpenAt(st', IncKey(inc))
            && |OpenItems(st')| == |OpenItems(st)| + n
            && SameAt(st.overlays, st'.overlays, OverlayKey(SlotOf(inc.facts), StatusKind))
  {
    hide WellFormed, OnNewEvent, AutoCategorize, ReviewsKept, ReviewsElsewhere, AllOpenAt, OpenItems, ItemsOpened;
    OnNewEventNeverReplays(env, st, inc, rows);
    var (st1, n, skipAuto) := OnNewEvent(env, st, inc, rows).value;
    AutoCategorizeStep(env, st1, inc);
    var st2 := AutoCategorize(env, st1, inc);
    NewOverlayStep(st, st1, st2, inc, n);
  }

  /** Review items are opened first, overlays of the event's slot are written after. */
  lemma NewOverlayStep(st: State, st1: State, st2: State, inc: Incoming, n: nat)
    requires WellFormed(st) && ItemsOpened(st, st1, IncKey(inc), n) && AllOpenAt(st1, IncKey(inc))
    requires OverlayOnly(st1, st2, SlotOf(inc.facts))
    ensures WellFormed(st2) && Local(st, st2, IncKey(inc), SlotOf(inc.facts))
    ensures st2 == st.(reviews := st2.reviews, overlays := st2.overlays) && st1.overlays == st.overlays
    ensures ReviewsKept(st, st2) && AllOpenAt(st2, IncKey(inc)) && |OpenItems(st2)| == |OpenItems(st)| + n
  {
    hide WellFormed, Local, OverlayOnly, ReviewsKept, AllOpenAt, OpenItems, ItemsOpened;
    OpenedLocal(st, st1, IncKey(inc), SlotOf(inc.facts), n);
    OverlayOnlyLocal(st1, st2, IncKey(inc), SlotOf(inc.facts));
    LocalTrans(st, st1, st2, IncKey(inc), SlotOf(inc.facts));
    OverlayOnlyParts(st1, st2, SlotOf(inc.facts));
    SameItems(st, st1, st2, IncKey(inc));
  }

  lemma OpenedLocal(st: State, st': State, k: EventKey, slot: Slot, n: nat)
    requires WellFormed(st) && ItemsOpened(st, st', k, n)
    ensures WellFormed(st') && Local(st, st', k, slot) && st' == st.(reviews := st'.reviews)
    ensures ReviewsKept(st, st') && |OpenItems(st')| == |OpenItems(st)| + n
  {
    hide ReviewsKept, OpenItems;
  }

  lemma OverlayOnlyParts(st: State, st': State, slot: Slot)
    requires OverlayOnly(st, st', slot)
    ensures st' == st.(overlays := st'.overlays)
  {
  }

  lemma SameItems(st: State, st1: State, st2: State, k: EventKey)
    requires ReviewsKept(st, st1) && AllOpenAt(st1, k) && st2.reviews == st1.reviews
    ensures ReviewsKept(st, st2) && AllOpenAt(st2, k) && OpenItems(st2) == OpenItems(st1)
  {
  }

  /** What handling a changed event may do before its draft is materialized: open items, and, when a
      recorded drop is replayed, dismiss the drafts and exclude the event. */
  ghost predicate ChangedEffect(st: State, st': State, inc: Incoming) {
    var (k, slot) := (IncKey(inc), SlotOf(inc.facts));
    && WellFormed(st') && Local(st, st', k, slot) && ReviewsKept(st, st')
    && st'.events == st.events && st'.entries.Keys == st.entries.Keys && st'.nextEntry == st.nextEntry
    && (Excluded(st', slot) || (st'.entries == st.entries && st'.overlays == st.overlays))
    && ExclusionKept(st, st') && CategoriesKept(st, st')
  }

  lemma OpenedEffect(st: State, st': State, inc: Incoming, n: nat)
    requires ItemsOpened(st, st', IncKey(inc), n)
    ensures ChangedEffect(st, st', inc)
  {
  }

  lemma ChangedEffectTrans(a: State, b: State, c: State, inc: Incoming)
    requires ChangedEffect(a, b, inc) && ChangedEffect(b, c, inc)
    ensures ChangedEffect(a, c, inc)
  {
    hide WellFormed, Local, CategoriesKept;
    LocalTrans(a, b, c, IncKey(inc), SlotOf(inc.facts));
    CategoriesKeptTrans(a, b, c);
  }

  lemma ReplayDropStep(env: Env, st: State, inc: Incoming)
    requires env.Valid() && WellFormed(st) && Recorded(st, SlotOf(inc.facts))
    requires IncKey(inc) in st.events && st.events[IncKey(inc)].facts == inc.facts
    ensures var st' := ApplyDeleted(env, st, IncKey(inc), DropEntry);
            st'.Done? && ChangedEffect(st, st'.value, inc) && OpenItems(st'.value) == OpenItems(st)
  {
    hide ApplyDeleted;
    DropEntryStep(env, st, IncKey(inc));
  }

  lemma OnRetitledStep(env: Env, st: State, ex: Event, inc: Incoming)
    requires WellFormed(st) && IncKey(inc) in st.events
    ensures var (st', n) := OnRetitled(env, st, ex, inc);
            ChangedEffect(st, st', inc) && |OpenItems(st')| == |OpenItems(st)| + n
  {
    hide WellFormed, ChangedEffect;
    var rk := ReviewKey(TitleChanged, IncIdentity(inc), Titles(env.normalize(ex.facts.title), env.normalize(inc.facts.title)));
    EnqueueStep(st, rk, IncKey(inc), Renamed(ex.facts.title, inc.facts.title));
    var (st', n) := OnRetitled(env, st, ex, inc);
    assert ItemsOpened(st, st', IncKey(inc), n);
    OpenedEffect(st, st', inc, n);
  }

  lemma OnDeclinedStep(env: Env, st: State, inc: Incoming)
    requires env.Valid() && WellFormed(st)
    requires IncKey(inc) in st.events && st.events[IncKey(inc)].facts == inc.facts
    ensures OnDeclined(env, st, inc).Done?
    ensures var (st', n) := OnDeclined(env, st, inc).value;
            ChangedEffect(st, st', inc) && |OpenItems(st')| == |OpenItems(st)| + n
  {
    hide WellFormed, ReviewsElsewhere, ReviewsKept, ChangedEffect, OpenItems, ItemsOpened, ApplyDeleted, EnqueueOrReplay;
    if inc.status == Declined {
      DeclinedStep(env, st, inc);
    } else {
      NothingOpened(st, IncKey(inc));
      OpenedEffect(st, st, inc, 0);
    }
  }

  lemma NothingOpened(st: State, k: EventKey)
    requires WellFormed(st)
    ensures ItemsOpened(st, st, k, 0)
  {
  }

  lemma ItemsOpenedParts(st: State, st': State, k: EventKey, n: nat)
    requires ItemsOpened(st, st', k, n)
    ensures WellFormed(st') && st'.events == st.events && |OpenItems(st')| == |OpenItems(st)| + n
  {
  }

  lemma DeclinedStep(env: Env, st: State, inc: Incoming)
    requires env.Valid() && WellFormed(st)
    requires IncKey(inc) in st.events && st.events[IncKey(inc)].facts == inc.facts && inc.status == Declined
    ensures OnDeclined(env, st, inc).Done?
    ensures var (st', n) := OnDeclined(env, st, inc).value;
            ChangedEffect(st, st', inc) && |OpenItems(st')| == |OpenItems(st)| + n
  {
    hide WellFormed, ChangedEffect, OpenItems, ItemsOpened, ApplyDeleted, EnqueueOrReplay;
    var rk := ReviewKey(DeletedCategorized, IncIdentity(inc), WasDeclined);
    EnqueueStep(st, rk, IncKey(inc), Titled(inc.facts.title));
    var (st1, action, n) := EnqueueOrReplay(st, rk, IncKey(inc), Titled(inc.facts.title));
    ItemsOpenedParts(st, st1, IncKey(inc), n);
    OpenedEffect(st, st1, inc, n);
    if action == DropEntry {
      assert rk in st1.reviews && IdentitySlot(rk.identity) == SlotOf(inc.facts);
      assert Recorded(st1, SlotOf(inc.facts));
      ReplayDropStep(env, st1, inc);
      ChangedEffectTrans(st, st1, ApplyDeleted(env, st1, IncKey(inc), DropEntry).value, inc);
    }
  }

  lemma OnChangedStep(env: Env, st: State, ex: Event, inc: Incoming)
    requires env.Valid() && WellFormed(st)
    requires IncKey(inc) in st.events && st.events[IncKey(inc)].facts == inc.facts
    ensures OnChangedCategorized(env, st, ex, inc).Done?
    ensures var (st', n) := OnChangedCategorized(env, st, ex, inc).value;
            ChangedEffect(st, st', inc) && |OpenItems(st')| == |OpenItems(st)| + n
  {
    hide WellFormed, Local, ReviewsKept, OnRetitled, OnDeclined, OpenItems, CategoriesKept, ExclusionKept;
    OnRetitledStep(env, st, ex, inc);
    var (st1, n1) := OnRetitled(env, st, ex, inc);
    OnDeclinedStep(env, st1, inc);
    var (st2, n2) := OnDeclined(env, st1, inc).value;
    ChangedEffectTrans(st, st1, st2, inc);
    assert OnChangedCategorized(env, st, ex, inc) == Done((st2, n1 + n2));
  }

  lemma HandleChangedStep(env: Env, st: State, ex: Event, inc: Incoming, rows: seq<Row>)
    requires env.Valid() && WellFormed(st)
    requires IncKey(inc) in st.events && st.events[IncKey(inc)].facts == inc.facts
    ensures HandleChanged(env, st, ex, inc, rows).Done?
    ensures var (st', n) := HandleChanged(env, st, ex, inc, rows).value;
            ChangedEffect(st, st', inc) && |OpenItems(st')| == |OpenItems(st)| + n
  {
    hide WellFormed, ChangedEffect, OnConfirmedSourceDrift, OnChangedCategorized, OpenItems, LinkedAs, TitleMaterial, Categorized;
    DriftEffect(st, inc, rows);
    var (st1, drift) := OnConfirmedSourceDrift(st, inc, rows);
    OnChangedStep(env, st1, ex, inc);
    var (st2, n) := OnChangedCategorized(env, st1, ex, inc).value;
    ChangedEffectTrans(st, st1, st2, inc);
  }

  lemma DriftEffect(st: State, inc: Incoming, rows: seq<Row>)
    requires WellFormed(st) && IncKey(inc) in st.events
    ensures var (st', n) := OnConfirmedSourceDrift(st, inc, rows);
            WellFormed(st') && st'.events == st.events && ChangedEffect(st, st', inc) && |OpenItems(st')| == |OpenItems(st)| + n
  {
    var (k, id) := (IncKey(inc), IncIdentity(inc));
    var ids := DriftedIds(rows, id, Hash(inc.facts));
    var (st', n) := OnConfirmedSourceDrift(st, inc, rows);
    if ids != [] {
      DriftStep(st, k, id, DriftOf(ids, id, Hash(inc.facts), inc.facts.title));
    }
    assert ItemsOpened(st, st', k, n);
    OpenedEffect(st, st', inc, n);
  }
}
