/** Recorded decisions to drop or keep the entry of a deleted or declined event. In a ledger whose syncs
    never share an overlay slot between events and never change an event's provider, an event with such a
    decision has no category left, so none is ever replayed and no sync fails on one. */
module LedgerForgone {
  import opened Wrappers
  import opened Intervals
  import opened Cutting
  import opened LedgerTypes
  import opened LedgerSpec
  import opened LedgerSteps
  import opened LedgerDrafts
  import opened LedgerSync
  import opened LedgerRuns
  import opened LedgerTheorems
  import opened LedgerIdempotence
  import opened LedgerFlags
  import opened LedgerConflicts
  import opened LedgerOutcome
  import opened LedgerUser
  import opened LedgerConfirm
  import opened LedgerDecisions
  import opened LedgerHistory

  // ── the invariant ───────────────────────────────────────────────────

  ghost predicate AlignedItem(st: State, rk: ReviewKey) {
    var k := IdentityKey(rk.identity);
    k in st.events && IdentitySlot(rk.identity) == SlotOf(st.events[k].facts)
  }

  /** Every review item names the overlay slot of its event. */
  ghost predicate Aligned(st: State) {
    forall rk :: rk in st.reviews ==> AlignedItem(st, rk)
  }

  /** Where it was decided to drop or keep the entry, no category is left. */
  ghost predicate Relinquished(st: State) {
    forall slot :: Recorded(st, slot) ==> !Categorized(st, slot)
  }

  ghost predicate Forgone(st: State) {
    Aligned(st) && Relinquished(st)
  }

  ghost predicate SameProvider(st: State, inc: Incoming) {
    IncKey(inc) in st.events ==> st.events[IncKey(inc)].facts.provider == inc.facts.provider
  }

  /** A pull that shares no overlay slot between events and keeps the provider of every stored event. */
  ghost predicate Plain(st: State, pull: seq<Incoming>) {
    Unshared(st, pull) && forall i :: 0 <= i < |pull| ==> SameProvider(st, pull[i])
  }

  // ── items stay aligned ──────────────────────────────────────────────

  /** Items are lost at will; any that appear name the given identity. */
  ghost predicate Born(st: State, st': State, id: Identity) {
    st'.events == st.events && forall rk :: rk in st'.reviews ==> rk in st.reviews || rk.identity == id
  }

  lemma BornAligned(st: State, st': State, id: Identity)
    requires Aligned(st) && Born(st, st', id)
    requires IdentityKey(id) in st.events && IdentitySlot(id) == SlotOf(st.events[IdentityKey(id)].facts)
    ensures Aligned(st')
  {
    forall rk | rk in st'.reviews ensures AlignedItem(st', rk) {
      if rk in st.reviews { assert AlignedItem(st, rk); }
    }
  }

  lemma BornTrans(a: State, b: State, c: State, id: Identity)
    requires Born(a, b, id) && Born(b, c, id)
    ensures Born(a, c, id)
  {
  }

  lemma BornEnqueue(st: State, rk: ReviewKey, k: EventKey, payload: Payload)
    ensures Born(st, EnqueueOrReplay(st, rk, k, payload).0, rk.identity)
  {
  }

  lemma BornDrift(st: State, k: EventKey, id: Identity, payload: Payload)
    ensures Born(st, EnqueueDrift(st, k, id, payload).0, id)
  {
  }

  lemma BornSame(st: State, st': State, id: Identity)
    requires st'.events == st.events && st'.reviews == st.reviews
    ensures Born(st, st', id)
  {
  }

  lemma BornNewEvent(env: Env, st: State, inc: Incoming, rows: seq<Row>)
    requires WellFormed(st) && IncKey(inc) in st.events && AllOpenAt(st, IncKey(inc))
    ensures HandleNew(env, st, inc, rows).Done?
    ensures Born(st, HandleNew(env, st, inc, rows).value.0, IncIdentity(inc))
  {
    hide WellFormed, AllOpenAt, ItemsOpened, EnqueueOrReplay, GapParts, Born;
    var (k, id) := (IncKey(inc), IncIdentity(inc));
    var title := Titled(inc.facts.title);
    var parts := Fingerprint(inc.facts, rows);
    OnNewEventNeverReplays(env, st, inc, rows);
    BornSame(st, st, id);
    var rk := if parts != [] then ReviewKey(NewInGap, id, GapPrint(parts))
              else if inc.facts.allDay then ReviewKey(AllDayEvent, id, Dates(inc.facts.startDate, inc.facts.endDate))
              else ReviewKey(TentativeEvent, id, StatusIs(inc.status));
    EnqueueOpenStep(st, rk, k, title);
    BornEnqueue(st, rk, k, title);
    var (st1, _, _) := OnNewEvent(env, st, inc, rows).value;
    assert Born(st, st1, id);
    AutoCategorizeStep(env, st1, inc);
    BornSame(st1, AutoCategorize(env, st1, inc), id);
    BornTrans(st, st1, AutoCategorize(env, st1, inc), id);
  }

  lemma BornDeclined(env: Env, st: State, inc: Incoming)
    requires env.Valid() && WellFormed(st) && IncKey(inc) in st.events && OnDeclined(env, st, inc).Done?
    ensures Born(st, OnDeclined(env, st, inc).value.0, IncIdentity(inc))
  {
    hide WellFormed, ApplyDeleted, EnqueueOrReplay, Retired, Born;
    var (k, rk) := (IncKey(inc), ReviewKey(DeletedCategorized, IncIdentity(inc), WasDeclined));
    BornSame(st, st, IncIdentity(inc));
    EnqueueReplays(st, rk, k, Titled(inc.facts.title));
    BornEnqueue(st, rk, k, Titled(inc.facts.title));
    var (st1, action, _) := EnqueueOrReplay(st, rk, k, Titled(inc.facts.title));
    if inc.status == Declined && action == DropEntry {
      DropEntryStep(env, st1, k);
      var st2 := ApplyDeleted(env, st1, k, DropEntry).value;
      RetiredTables(st1, st2, k);
      BornSame(st1, st2, IncIdentity(inc));
      BornTrans(st, st1, st2, IncIdentity(inc));
    }
  }

  lemma RetiredTables(st: State, st': State, k: EventKey)
    requires k in st.events && Retired(st, st', k)
    ensures st'.reviews == st.reviews && st'.events == st.events
  {
  }

  lemma BornChangedEvent(env: Env, st: State, ex: Event, inc: Incoming, rows: seq<Row>)
    requires env.Valid() && WellFormed(st)
    requires IncKey(inc) in st.events && st.events[IncKey(inc)].facts == inc.facts
    ensures HandleChanged(env, st, ex, inc, rows).Done?
    ensures Born(st, HandleChanged(env, st, ex, inc, rows).value.0, IncIdentity(inc))
  {
    hide WellFormed, LinkedAs, TitleMaterial, OnDeclined, ChangedEffect, EnqueueDrift, EnqueueOrReplay, Born, DriftedIds, Categorized;
    var id := IncIdentity(inc);
    HandleChangedStep(env, st, ex, inc, rows);
    DriftTables(st, inc, rows);
    BornSame(st, st, id);
    BornDrift(st, IncKey(inc), id, DriftOf(DriftedIds(rows, id, Hash(inc.facts)), id, Hash(inc.facts), inc.facts.title));
    var (st1, _) := OnConfirmedSourceDrift(st, inc, rows);
    assert Born(st, st1, id);
    hide OnConfirmedSourceDrift;
    OnChangedStep(env, st1, ex, inc);
    var rk := ReviewKey(TitleChanged, id, Titles(env.normalize(ex.facts.title), env.normalize(inc.facts.title)));
    BornEnqueue(st1, rk, IncKey(inc), Renamed(ex.facts.title, inc.facts.title));
    BornSame(st1, st1, id);
    var (st2, _) := OnRetitled(env, st1, ex, inc);
    OnRetitledKeeps(env, st1, ex, inc);
    assert Born(st1, st2, id);
    hide OnRetitled;
    BornDeclined(env, st2, inc);
    BornTrans(st, st1, st2, id);
    BornTrans(st, st2, OnDeclined(env, st2, inc).value.0, id);
  }

  lemma DriftTables(st: State, inc: Incoming, rows: seq<Row>)
    requires WellFormed(st) && IncKey(inc) in st.events
    ensures var st' := OnConfirmedSourceDrift(st, inc, rows).0;
            WellFormed(st') && st' == st.(reviews := st'.reviews)
  {
    hide WellFormed, ChangedEffect, DriftedIds, OpenItems;
    DriftEffect(st, inc, rows);
  }

  lemma UpsertAligned(st: State, inc: Incoming)
    requires WellFormed(st) && Aligned(st) && SameProvider(st, inc)
    ensures Aligned(UpsertEvent(st, inc))
  {
    var st' := UpsertEvent(st, inc);
    forall rk | rk in st'.reviews ensures AlignedItem(st', rk) { assert AlignedItem(st, rk); }
  }

  lemma MaterializedTables(env: Env, base: map<EventKey, Event>, inc: Incoming, s: Sync, st: State, flagged: nat, material: bool)
    requires PullInv(base, s) && Prepared(base, inc, s, st, flagged) && Materialize(env, st, inc, s.rows, material).Done?
    ensures var st' := Materialize(env, st, inc, s.rows, material).value.0;
            && st' == st.(entries := st'.entries, nextEntry := st'.nextEntry)
            && forall x :: x in st'.entries && x !in st.entries ==> st'.entries[x].source.Calendar?
  {
    hide PullInv, Materialize, Tracks, EntriesStep, WellFormed, Local, ReviewsKept, CategoriesKept, ExclusionKept, NoOldDecisions, OpenItems, AllDismissed, LinkedAs, Unblocked;
    PreparedTracks(base, inc, s, st, flagged);
    MaterializeStep(env, st, inc, s.rows, material);
  }

  lemma PullAligned(env: Env, base: map<EventKey, Event>, inc: Incoming, s: Sync)
    requires env.Valid() && PullInv(base, s) && PullOne(env, base, inc, s).Done?
    requires Aligned(s.st) && SameProvider(s.st, inc)
    ensures Aligned(PullOne(env, base, inc, s).value.st)
  {
    hide PullInv, Prepared, HandleNew, HandleChanged, UpsertEvent, AllOpenAt, WellFormed, Materialize, Aligned;
    var (k, id) := (IncKey(inc), IncIdentity(inc));
    var st0 := UpsertEvent(s.st, inc);
    if k in base && base[k].facts == inc.facts {
      PrepareSame(base, inc, s);
      MaterializedTables(env, base, inc, s, s.st, 0, false);
      SameAligned(s.st, PullOne(env, base, inc, s).value.st);
    } else {
      StoredFirst(base, inc, s);
      InvWellFormed(base, s);
      UpsertAligned(s.st, inc);
      if k !in base {
        PrepareNew(env, base, inc, s);
        BornNewEvent(env, st0, inc, s.rows);
        var (st1, flagged) := HandleNew(env, st0, inc, s.rows).value;
        BornAligned(st0, st1, id);
        MaterializedTables(env, base, inc, s, st1, flagged, false);
        SameAligned(st1, PullOne(env, base, inc, s).value.st);
      } else {
        PrepareChanged(env, base, inc, s);
        BornChangedEvent(env, st0, base[k], inc, s.rows);
        var (st1, flagged) := HandleChanged(env, st0, base[k], inc, s.rows).value;
        BornAligned(st0, st1, id);
        MaterializedTables(env, base, inc, s, st1, flagged, TitleMaterial(env, base[k], inc) || IncludeDropped(base[k], inc));
        SameAligned(st1, PullOne(env, base, inc, s).value.st);
      }
    }
  }

  lemma InvWellFormed(base: map<EventKey, Event>, s: Sync)
    requires PullInv(base, s)
    ensures WellFormed(s.st)
  {
  }

  lemma SameAligned(a: State, b: State)
    requires Aligned(a) && b.events == a.events && b.reviews == a.reviews
    ensures Aligned(b)
  {
    forall rk | rk in b.reviews ensures AlignedItem(b, rk) { assert AlignedItem(a, rk); }
  }

  lemma VanishAligned(env: Env, seen: set<EventKey>, ev: Event, s: Sync)
    requires env.Valid() && VanishInv(s) && VanishOne(env, seen, ev, s).Done? && Aligned(s.st)
    requires EvKey(ev) in seen || (EvKey(ev) in s.st.events && s.st.events[EvKey(ev)].facts == ev.facts)
    ensures Aligned(VanishOne(env, seen, ev, s).value.st)
  {
    hide WellFormed, Tracks, Aligned, Born, DeletedPayload, ConfirmedIds, OnVanishedCategorized, EnqueueDrift, DeleteEvent, Excluded, Categorized;
    var (k, id) := (EvKey(ev), IdentityOf(ev.calendar, ev.facts));
    if k !in seen && !Excluded(s.st, SlotOf(ev.facts)) {
      if Categorized(s.st, SlotOf(ev.facts)) {
        BornVanished(env, ev, s.st);
        BornAligned(s.st, OnVanishedCategorized(env, s.st, ev).value.0, id);
      } else if ConfirmedIds(s.rows, id) != [] {
        BornDrift(s.st, k, id, DeletedPayload(s.rows, ev));
        BornAligned(s.st, EnqueueDrift(s.st, k, id, DeletedPayload(s.rows, ev)).0, id);
      } else {
        DeleteAligned(s.st, k);
      }
    }
  }

  lemma DeleteAligned(st: State, k: EventKey)
    requires WellFormed(st) && Aligned(st)
    ensures Aligned(DeleteEvent(st, k))
  {
    var st' := DeleteEvent(st, k);
    forall rk | rk in st'.reviews ensures AlignedItem(st', rk) { assert AlignedItem(st, rk); }
  }

  lemma BornVanished(env: Env, ev: Event, st: State)
    requires env.Valid() && WellFormed(st) && EvKey(ev) in st.events && OnVanishedCategorized(env, st, ev).Done?
    ensures Born(st, OnVanishedCategorized(env, st, ev).value.0, IdentityOf(ev.calendar, ev.facts))
  {
    hide WellFormed, ApplyDeleted, EnqueueOrReplay, Retired, Born;
    var (k, id) := (EvKey(ev), IdentityOf(ev.calendar, ev.facts));
    var rk := ReviewKey(DeletedCategorized, id, WasDeleted);
    EnqueueReplays(st, rk, k, Titled(ev.facts.title));
    BornEnqueue(st, rk, k, Titled(ev.facts.title));
    var (st1, action, _) := EnqueueOrReplay(st, rk, k, Titled(ev.facts.title));
    if action == DropEntry || action == KeepEntry {
      if action == DropEntry { DropEntryStep(env, st1, k); } else { KeepEntryStep(env, st1, k); }
      var st2 := ApplyDeleted(env, st1, k, action).value;
      RetiredTables(st1, st2, k);
      BornSame(st1, st2, id);
      BornTrans(st, st1, st2, id);
    }
  }

  lemma {:induction false} PullsAligned(env: Env, pull: seq<Incoming>, s: Sync)
    requires env.Valid() && PullInv(s.st.events, s) && DistinctPull(pull) && Aligned(s.st)
    requires forall i :: 0 <= i < |pull| ==> SameProvider(s.st, pull[i])
    requires PullAll(env, s.st.events, pull, s).Done?
    ensures Aligned(PullAll(env, s.st.events, pull, s).value.st)
  {
    hide PullInv, PullsEffect, PullEffect, Proposals, PullOne, Aligned, DistinctPull, SameProvider;
    if |pull| > 0 {
      var base := s.st.events;
      var init, inc := pull[..|pull| - 1], pull[|pull| - 1];
      PrefixDistinct(init, inc, pull);
      assert forall i :: 0 <= i < |init| ==> init[i] == pull[i];
      PullsAligned(env, init, s);
      PullAllStep(env, base, init, s);
      var mid := PullAll(env, base, init, s).value;
      KeyOutside(init, inc, s, mid);
      ProviderFrame(s.st, mid.st, inc);
      PullAligned(env, base, inc, mid);
    }
  }

  lemma ProviderFrame(st: State, st': State, inc: Incoming)
    requires KeyFrame(st, st', IncKey(inc)) && SameProvider(st, inc)
    ensures SameProvider(st', inc)
  {
  }

  lemma {:induction false} VanishesAligned(env: Env, seen: set<EventKey>, gone: seq<Event>, s: Sync)
    requires env.Valid() && VanishInv(s) && Distinct(gone) && Aligned(s.st)
    requires forall ev :: ev in gone && EvKey(ev) !in seen ==> EvKey(ev) in s.st.events && s.st.events[EvKey(ev)].facts == ev.facts
    requires VanishAll(env, seen, gone, s).Done?
    ensures Aligned(VanishAll(env, seen, gone, s).value.st)
  {
    hide VanishRun, VanishInv, VanishOne, Distinct, Aligned;
    if |gone| > 0 {
      var init, ev := gone[..|gone| - 1], gone[|gone| - 1];
      assert gone == init + [ev];
      InitDistinct(seen, init, ev);
      VanishesAligned(env, seen, init, s);
      VanishAllStep(env, seen, init, s);
      var mid := VanishAll(env, seen, init, s).value;
      StillStored(seen, init, ev, s, mid);
      VanishAligned(env, seen, ev, mid);
    }
  }

  lemma InitDistinct(seen: set<EventKey>, init: seq<Event>, ev: Event)
    requires Distinct(init + [ev])
    ensures Distinct(init) && (EvKey(ev) !in seen ==> EvKey(ev) !in GoneKeys(seen, init))
  {
    var gone := init + [ev];
    assert forall i :: 0 <= i < |init| ==> init[i] == gone[i];
    forall x | x in init ensures EvKey(x) != EvKey(ev) {
      var i :| 0 <= i < |init| && init[i] == x;
      assert gone[i] == x && gone[|init|] == ev;
    }
  }

  lemma StillStored(seen: set<EventKey>, init: seq<Event>, ev: Event, s: Sync, mid: Sync)
    requires VanishRun(seen, init, s, mid) && (EvKey(ev) !in seen ==> EvKey(ev) !in GoneKeys(seen, init))
    requires EvKey(ev) !in seen ==> EvKey(ev) in s.st.events && s.st.events[EvKey(ev)].facts == ev.facts
    ensures VanishInv(mid) && (EvKey(ev) !in seen ==> EvKey(ev) in mid.st.events && mid.st.events[EvKey(ev)].facts == ev.facts)
  {
    if EvKey(ev) !in seen { VanishReady(seen, init, ev, s, mid); }
  }

  // ── categories stay relinquished ────────────────────────────────────

  lemma RelinquishedStep(st: State, st': State, except: set<Slot>)
    requires Relinquished(st) && ClosedKept(st, st') && Fated(st, st', except)
    requires forall slot :: slot in except ==> !Recorded(st, slot)
    ensures Relinquished(st')
  {
    forall slot | Recorded(st', slot) ensures !Categorized(st', slot) {
      var rk :| rk in st'.reviews && rk.kind == DeletedCategorized && IdentitySlot(rk.identity) == slot
        && st'.reviews[rk].status != Open && (st'.reviews[rk].action == DropEntry || st'.reviews[rk].action == KeepEntry);
      assert rk in st.reviews;
      assert Recorded(st, slot);
      assert CategoryFate(st, st', slot);
    }
  }

  /** No event new in a plain pull has the slot of a recorded decision: that slot belongs to a stored event. */
  lemma NewSlotsUnrecorded(st: State, pull: seq<Incoming>, slot: Slot)
    requires WellFormed(st) && Aligned(st) && Plain(st, pull) && slot in NewSlots(st.events, pull)
    ensures !Recorded(st, slot)
  {
    var inc :| inc in pull && IncKey(inc) !in st.events && SlotOf(inc.facts) == slot;
    assert slot in Slots(pull);
    if Recorded(st, slot) {
      var rk :| rk in st.reviews && rk.kind == DeletedCategorized && IdentitySlot(rk.identity) == slot;
      assert AlignedItem(st, rk);
      var k := IdentityKey(rk.identity);
      if k in Keys(pull) { SlotOfPulled(st, pull, k, inc); }
      assert false;
    }
  }

  lemma SlotOfPulled(st: State, pull: seq<Incoming>, k: EventKey, inc: Incoming)
    requires WellFormed(st) && Plain(st, pull) && k in st.events && k in Keys(pull)
    requires inc in pull && IncKey(inc) !in st.events
    ensures SlotOf(st.events[k].facts) != SlotOf(inc.facts)
  {
    var j :| 0 <= j < |pull| && pull[j] == inc;
    var own :| own in pull && IncKey(own) == k;
    var i :| 0 <= i < |pull| && pull[i] == own;
    assert SameProvider(st, pull[i]);
    assert SlotOf(st.events[k].facts) == SlotOf(own.facts);
    assert i != j;
    assert SlotOf(pull[i].facts) != SlotOf(pull[j].facts);
  }

  lemma PullsRelinquished(env: Env, st: State, pull: seq<Incoming>, n: nat, mid: Sync)
    requires env.Valid() && WellFormed(st) && Forgone(st) && Plain(st, pull) && n <= |pull|
    requires PullsEffect(st.events, pull[..n], Start(env, st), mid)
    ensures Relinquished(mid.st)
  {
    hide WellFormed, Aligned, Plain, Recorded, Framed, Evolved, ExclusionKept, OpenItems;
    forall slot | slot in NewSlots(st.events, pull[..n]) ensures !Recorded(st, slot) {
      NewSlotsUnrecorded(st, pull, slot);
    }
    assert ClosedKept(st, mid.st) && Fated(st, mid.st, NewSlots(st.events, pull[..n]));
    hide ReviewsKept, Fated, ClosedKept;
    RelinquishedStep(st, mid.st, NewSlots(st.events, pull[..n]));
  }

  lemma VanishesRelinquished(seen: set<EventKey>, gone: seq<Event>, s: Sync, mid: Sync)
    requires VanishRun(seen, gone, s, mid) && Relinquished(s.st)
    ensures Relinquished(mid.st)
  {
    var none: set<Slot> := {};
    assert ClosedKept(s.st, mid.st) && Fated(s.st, mid.st, none);
    hide VanishRun;
    RelinquishedStep(s.st, mid.st, none);
  }

  /** A sync over a plain pull keeps the invariant. */
  lemma SyncForgone(env: Env, st: State, pull: seq<Incoming>)
    requires env.Valid() && WellFormed(st) && Forgone(st) && Plain(st, pull) && SyncEvents(env, st, pull).Done?
    ensures Forgone(SyncEvents(env, st, pull).value.0)
  {
    hide WellFormed, Aligned, Relinquished, PullInv, PullsEffect, VanishRun, Proposals, SyncEvents, PullAll, VanishAll, Unshared, DistinctPull, SameProvider, BaseEvents, VanishInv, Distinct;
    var s1, s2 := SyncRuns(env, st, pull);
    StartInv(env, st);
    KeysApart(st, pull);
    Apart(st, pull);
    PullsAligned(env, pull, Start(env, st));
    assert pull[..|pull|] == pull;
    PullsRelinquished(env, st, pull, |pull|, s1);
    BaseListed(env, st);
    StoredForVanish(env, st, pull, s1);
    VanishesAligned(env, Keys(pull), BaseEvents(env, st.events), s1);
    VanishesRelinquished(Keys(pull), BaseEvents(env, st.events), s1, s2);
  }

  // ── nothing is replayed ─────────────────────────────────────────────

  lemma RecordedOne(st: State, rk: ReviewKey)
    requires rk in st.reviews && rk.kind == DeletedCategorized && st.reviews[rk].status != Open
    requires st.reviews[rk].action == DropEntry || st.reviews[rk].action == KeepEntry
    ensures Recorded(st, IdentitySlot(rk.identity))
  {
  }

  lemma OnlyItemsDeclined(env: Env, st: State, inc: Incoming)
    requires env.Valid() && WellFormed(st) && IncKey(inc) in st.events && st.events[IncKey(inc)].facts == inc.facts
    requires !Recorded(st, SlotOf(inc.facts))
    ensures OnDeclined(env, st, inc).Done?
    ensures var st' := OnDeclined(env, st, inc).value.0; st' == st.(reviews := st'.reviews)
  {
    hide WellFormed, ApplyDeleted, EnqueueOrReplay, Recorded;
    var rk := ReviewKey(DeletedCategorized, IncIdentity(inc), WasDeclined);
    EnqueueReplays(st, rk, IncKey(inc), Titled(inc.facts.title));
    EnqueueItemsOnly(st, rk, IncKey(inc), Titled(inc.facts.title));
    if rk in st.reviews && st.reviews[rk].status != Open && st.reviews[rk].action == DropEntry { RecordedOne(st, rk); }
  }

  lemma EnqueueItemsOnly(st: State, rk: ReviewKey, k: EventKey, payload: Payload)
    ensures var st' := EnqueueOrReplay(st, rk, k, payload).0; st' == st.(reviews := st'.reviews)
  {
  }

  /** Opening an item makes no recorded decision. */
  lemma UnrecordedLater(st: State, st': State, slot: Slot)
    requires ClosedKept(st, st') && !Recorded(st, slot)
    ensures !Recorded(st', slot)
  {
  }

  lemma OnlyItemsChanged(env: Env, st: State, ex: Event, inc: Incoming, rows: seq<Row>)
    requires env.Valid() && WellFormed(st) && Relinquished(st)
    requires IncKey(inc) in st.events && st.events[IncKey(inc)].facts == inc.facts
    ensures HandleChanged(env, st, ex, inc, rows).Done?
    ensures var st' := HandleChanged(env, st, ex, inc, rows).value.0; st' == st.(reviews := st'.reviews)
  {
    hide WellFormed, LinkedAs, TitleMaterial, OnDeclined, ChangedEffect, EnqueueOrReplay, DriftedIds, Recorded, Categorized, OnConfirmedSourceDrift;
    var slot := SlotOf(inc.facts);
    DriftTables(st, inc, rows);
    DriftCloses(st, inc, rows);
    var (st1, _) := OnConfirmedSourceDrift(st, inc, rows);
    SameCategory(st, st1, slot);
    if Categorized(st1, slot) {
      UnrecordedLater(st, st1, slot);
      var rk := ReviewKey(TitleChanged, IncIdentity(inc), Titles(env.normalize(ex.facts.title), env.normalize(inc.facts.title)));
      EnqueueItemsOnly(st1, rk, IncKey(inc), Renamed(ex.facts.title, inc.facts.title));
      RetitledCloses(env, st1, ex, inc);
      var (st2, _) := OnRetitled(env, st1, ex, inc);
      UnrecordedLater(st1, st2, slot);
      OnlyItemsDeclined(env, st2, inc);
    }
  }

  lemma DriftCloses(st: State, inc: Incoming, rows: seq<Row>)
    requires WellFormed(st) && IncKey(inc) in st.events
    ensures ClosedKept(st, OnConfirmedSourceDrift(st, inc, rows).0)
  {
    hide DriftedIds;
  }

  lemma RetitledCloses(env: Env, st: State, ex: Event, inc: Incoming)
    requires WellFormed(st) && IncKey(inc) in st.events
    ensures var st' := OnRetitled(env, st, ex, inc).0; WellFormed(st') && ClosedKept(st, st') && st'.events == st.events
  {
    hide WellFormed, OpenItems, Local, ExclusionKept, CategoriesKept;
    OnRetitledStep(env, st, ex, inc);
  }

  lemma OnlyItemsVanished(env: Env, seen: set<EventKey>, ev: Event, s: Sync)
    requires env.Valid() && VanishInv(s) && Relinquished(s.st)
    requires EvKey(ev) !in seen ==> EvKey(ev) in s.st.events && s.st.events[EvKey(ev)].facts == ev.facts
    ensures VanishOne(env, seen, ev, s).Done?
    ensures var st' := VanishOne(env, seen, ev, s).value.st;
            st' == s.st.(reviews := st'.reviews) || (EvKey(ev) !in seen && st' == DeleteEvent(s.st, EvKey(ev)))
  {
    hide WellFormed, Tracks, DeletedPayload, ConfirmedIds, OnVanishedCategorized, Excluded, Categorized, Recorded, DeleteEvent;
    if EvKey(ev) !in seen && !Excluded(s.st, SlotOf(ev.facts)) && Categorized(s.st, SlotOf(ev.facts)) {
      OnlyItemsCategorized(env, s.st, ev);
    }
  }

  lemma OnlyItemsCategorized(env: Env, st: State, ev: Event)
    requires env.Valid() && WellFormed(st) && EvKey(ev) in st.events && !Recorded(st, SlotOf(ev.facts))
    ensures OnVanishedCategorized(env, st, ev).Done?
    ensures var st' := OnVanishedCategorized(env, st, ev).value.0; st' == st.(reviews := st'.reviews)
  {
    hide WellFormed, ApplyDeleted, EnqueueOrReplay, Recorded;
    var (k, rk) := (EvKey(ev), ReviewKey(DeletedCategorized, IdentityOf(ev.calendar, ev.facts), WasDeleted));
    EnqueueReplays(st, rk, k, Titled(ev.facts.title));
    EnqueueItemsOnly(st, rk, k, Titled(ev.facts.title));
    if rk in st.reviews && st.reviews[rk].status != Open && (st.reviews[rk].action == DropEntry || st.reviews[rk].action == KeepEntry) {
      RecordedOne(st, rk);
    }
  }

  /** Where a sync over a plain pull handles a changed event, only review items change: no recorded drop is
      replayed. */
  lemma ChangedEventsReplayNothing(env: Env, st: State, pull: seq<Incoming>, i: nat)
    requires env.Valid() && WellFormed(st) && Forgone(st) && Plain(st, pull) && SyncEvents(env, st, pull).Done?
    requires i < |pull| && IncKey(pull[i]) in st.events && st.events[IncKey(pull[i])].facts != pull[i].facts
    ensures PullAll(env, st.events, pull[..i], Start(env, st)).Done?
    ensures var mid := PullAll(env, st.events, pull[..i], Start(env, st)).value;
            var st0 := UpsertEvent(mid.st, pull[i]);
            var o := HandleChanged(env, st0, st.events[IncKey(pull[i])], pull[i], mid.rows);
            o.Done? && o.value.0 == st0.(reviews := o.value.0.reviews)
  {
    hide WellFormed, Aligned, Relinquished, PullInv, PullsEffect, Proposals, PullAll, Plain, UpsertEvent, AllOpenAt, HandleChanged;
    var mid := PrefixRelinquished(env, st, pull, i);
    StoredFirst(st.events, pull[i], mid);
    UpsertRelinquished(mid.st, pull[i]);
    OnlyItemsChanged(env, UpsertEvent(mid.st, pull[i]), st.events[IncKey(pull[i])], pull[i], mid.rows);
  }

  lemma UpsertRelinquished(st: State, inc: Incoming)
    requires Relinquished(st)
    ensures Relinquished(UpsertEvent(st, inc))
  {
    var st' := UpsertEvent(st, inc);
    forall slot | Recorded(st', slot) ensures !Categorized(st', slot) {
      assert Recorded(st, slot);
    }
  }

  lemma PrefixRelinquished(env: Env, st: State, pull: seq<Incoming>, i: nat) returns (mid: Sync)
    requires env.Valid() && WellFormed(st) && Forgone(st) && Plain(st, pull) && i <= |pull|
    requires PullAll(env, st.events, pull, Start(env, st)).Done?
    ensures PullAll(env, st.events, pull[..i], Start(env, st)) == Done(mid)
    ensures PullInv(st.events, mid) && Relinquished(mid.st)
  {
    hide WellFormed, Aligned, Relinquished, PullInv, PullsEffect, Proposals, PullAll, Plain;
    StartInv(env, st);
    PrefixDone(env, st.events, pull, Start(env, st), i);
    PullAllStep(env, st.events, pull[..i], Start(env, st));
    mid := PullAll(env, st.events, pull[..i], Start(env, st)).value;
    PullsRelinquished(env, st, pull, i, mid);
  }

  // ── what such a sync leaves alone ───────────────────────────────────

  /** Overlays stay, except categories of the given slots, and rows appear only as linked proposals: no
      exclusion is written and no entry kept. */
  ghost predicate Quiet(st: State, st': State, except: set<Slot>) {
    && (forall ok: OverlayKey :: ok.kind == StatusKind || ok.slot !in except ==> SameAt(st.overlays, st'.overlays, ok))
    && (forall x :: x in st'.entries && x !in st.entries ==> st'.entries[x].source.Calendar?)
  }

  lemma QuietTrans(a: State, b: State, c: State, more: set<Slot>, except: set<Slot>)
    requires Quiet(a, b, except) && Quiet(b, c, more) && Evolved(b, c)
    ensures Quiet(a, c, except + more)
  {
    forall ok: OverlayKey | ok.kind == StatusKind || ok.slot !in except + more ensures SameAt(a.overlays, c.overlays, ok) {
      assert SameAt(a.overlays, b.overlays, ok) && SameAt(b.overlays, c.overlays, ok);
    }
    forall x | x in c.entries && x !in a.entries ensures c.entries[x].source.Calendar? {
      if x in b.entries { assert EntryStep(b.entries[x], c.entries[x]); }
    }
  }

  lemma QuietSame(st: State, st': State)
    requires st'.overlays == st.overlays
    requires forall x :: x in st'.entries && x !in st.entries ==> st'.entries[x].source.Calendar?
    ensures Quiet(st, st', {})
  {
  }

  lemma NewCategoryOnly(env: Env, st: State, inc: Incoming, rows: seq<Row>)
    requires WellFormed(st) && IncKey(inc) in st.events && AllOpenAt(st, IncKey(inc))
    ensures HandleNew(env, st, inc, rows).Done?
    ensures var st' := HandleNew(env, st, inc, rows).value.0; st'.entries == st.entries && Quiet(st, st', {SlotOf(inc.facts)})
  {
    HandleNewStep(env, st, inc, rows);
    hide WellFormed, ReviewsKept, AllOpenAt, OpenItems, HandleNew, EventsElsewhere, ReviewsElsewhere, EntriesStep;
  }

  lemma PullQuiet(env: Env, base: map<EventKey, Event>, inc: Incoming, s: Sync)
    requires env.Valid() && PullInv(base, s) && Relinquished(s.st) && PullOne(env, base, inc, s).Done?
    ensures Quiet(s.st, PullOne(env, base, inc, s).value.st, if IncKey(inc) in base then {} else {SlotOf(inc.facts)})
  {
    hide PullInv, Prepared, HandleNew, HandleChanged, AllOpenAt, WellFormed, Materialize, Relinquished, Quiet;
    var k := IncKey(inc);
    var st0 := UpsertEvent(s.st, inc);
    var s' := PullOne(env, base, inc, s).value;
    if k in base && base[k].facts == inc.facts {
      PrepareSame(base, inc, s);
      MaterializedTables(env, base, inc, s, s.st, 0, false);
      QuietSame(s.st, s'.st);
    } else {
      StoredFirst(base, inc, s);
      if k !in base {
        PrepareNew(env, base, inc, s);
        NewCategoryOnly(env, st0, inc, s.rows);
        var (st1, flagged) := HandleNew(env, st0, inc, s.rows).value;
        MaterializedTables(env, base, inc, s, st1, flagged, false);
        QuietBetween(s.st, st0, st1, s'.st, {SlotOf(inc.facts)});
      } else {
        PrepareChanged(env, base, inc, s);
        UpsertRelinquished(s.st, inc);
        OnlyItemsChanged(env, st0, base[k], inc, s.rows);
        var (st1, flagged) := HandleChanged(env, st0, base[k], inc, s.rows).value;
        MaterializedTables(env, base, inc, s, st1, flagged, TitleMaterial(env, base[k], inc) || IncludeDropped(base[k], inc));
        QuietSame(s.st, s'.st);
      }
    }
  }

  lemma QuietBetween(a: State, a': State, b: State, b': State, except: set<Slot>)
    requires a'.overlays == a.overlays && a'.entries == a.entries && Quiet(a', b, except) && b.entries == a'.entries
    requires b'.overlays == b.overlays && forall x :: x in b'.entries && x !in b.entries ==> b'.entries[x].source.Calendar?
    ensures Quiet(a, b', except)
  {
  }

  lemma {:induction false} PullsQuiet(env: Env, st: State, pull: seq<Incoming>, n: nat)
    requires env.Valid() && WellFormed(st) && Forgone(st) && Plain(st, pull) && n <= |pull|
    requires PullAll(env, st.events, pull, Start(env, st)).Done?
    ensures PullAll(env, st.events, pull[..n], Start(env, st)).Done?
    ensures Quiet(st, PullAll(env, st.events, pull[..n], Start(env, st)).value.st, NewSlots(st.events, pull[..n]))
  {
    hide WellFormed, Aligned, Relinquished, PullInv, PullEffect, Plain, Quiet, Evolved, PullOne, Grew;
    var s0 := Start(env, st);
    if n == 0 {
      assert pull[..0] == [] && NewSlots(st.events, []) == {};
      QuietSame(st, st);
    } else {
      PullsQuiet(env, st, pull, n - 1);
      var mid := PrefixRelinquished(env, st, pull, n - 1);
      var after := PrefixRelinquished(env, st, pull, n);
      var (init, inc) := (pull[..n - 1], pull[n - 1]);
      assert pull[..n] == init + [inc] && pull[..n][..n - 1] == init;
      assert PullOne(env, st.events, inc, mid) == Done(after);
      PullOneStep(env, st.events, inc, mid);
      PullEvolved(env, st.events, inc, mid, after);
      PullQuiet(env, st.events, inc, mid);
      var more := if IncKey(inc) in st.events then {} else {SlotOf(inc.facts)};
      QuietTrans(st, mid.st, after.st, more, NewSlots(st.events, init));
      NewSlotsPush(st.events, init, inc);
    }
  }

  lemma NewSlotsPush(base: map<EventKey, Event>, init: seq<Incoming>, inc: Incoming)
    ensures NewSlots(base, init + [inc]) == NewSlots(base, init) + (if IncKey(inc) in base then {} else {SlotOf(inc.facts)})
  {
  }

  lemma {:induction false} VanishesQuiet(env: Env, seen: set<EventKey>, gone: seq<Event>, s: Sync)
    requires env.Valid() && VanishInv(s) && Distinct(gone) && Relinquished(s.st)
    requires forall ev :: ev in gone && EvKey(ev) !in seen ==> EvKey(ev) in s.st.events && s.st.events[EvKey(ev)].facts == ev.facts
    ensures VanishAll(env, seen, gone, s).Done?
    ensures var st' := VanishAll(env, seen, gone, s).value.st; st'.overlays == s.st.overlays && st'.entries == s.st.entries
  {
    hide VanishRun, VanishInv, VanishOne, Distinct, Relinquished;
    if |gone| > 0 {
      var init, ev := gone[..|gone| - 1], gone[|gone| - 1];
      assert gone == init + [ev];
      InitDistinct(seen, init, ev);
      VanishesQuiet(env, seen, init, s);
      VanishAllStep(env, seen, init, s);
      var mid := VanishAll(env, seen, init, s).value;
      StillStored(seen, init, ev, s, mid);
      VanishesRelinquished(seen, init, s, mid);
      OnlyItemsVanished(env, seen, ev, mid);
    }
  }

  /** A sync over a plain pull writes no exclusion, clears no category and keeps no entry: overlays change
      only as categories of events new in the pull, rows appear only as linked proposals, and with a time
      zone it does not fail. */
  lemma SyncReplaysNothing(env: Env, st: State, pull: seq<Incoming>)
    requires env.Valid() && WellFormed(st) && Forgone(st) && Plain(st, pull)
    ensures env.hasTz ==> SyncEvents(env, st, pull).Done?
    ensures SyncEvents(env, st, pull).Done? ==> Quiet(st, SyncEvents(env, st, pull).value.0, NewSlots(st.events, pull))
  {
    hide WellFormed, Aligned, Relinquished, PullInv, PullsEffect, VanishRun, Proposals, PullAll, VanishAll, Unshared, DistinctKeys, SameProvider, BaseEvents, VanishInv, Distinct, Quiet;
    KeysApart(st, pull);
    if env.hasTz { var _ := PullLoopDone(env, st, pull); }
    if PullAll(env, st.events, pull, Start(env, st)).Done? {
      StartInv(env, st);
      PullsQuiet(env, st, pull, |pull|);
      var s1 := PrefixRelinquished(env, st, pull, |pull|);
      assert pull[..|pull|] == pull;
      PullAllStep(env, st.events, pull, Start(env, st));
      BaseListed(env, st);
      StoredForVanish(env, st, pull, s1);
      VanishesQuiet(env, Keys(pull), BaseEvents(env, st.events), s1);
      SameQuiet(st, s1.st, VanishAll(env, Keys(pull), BaseEvents(env, st.events), s1).value.st, NewSlots(st.events, pull));
    }
  }

  lemma SameQuiet(st: State, a: State, b: State, except: set<Slot>)
    requires Quiet(st, a, except) && b.overlays == a.overlays && b.entries == a.entries
    ensures Quiet(st, b, except)
  {
  }

  // ── every step and every run ────────────────────────────────────────

  /** No category appears. */
  ghost predicate Uncategorizing(st: State, st': State) {
    forall slot :: Categorized(st', slot) ==> Categorized(st, slot)
  }

  lemma SameTables(st: State, st': State)
    requires Forgone(st) && st'.events == st.events && st'.overlays == st.overlays && st'.reviews == st.reviews
    ensures Forgone(st')
  {
    SameAligned(st, st');
    forall slot | Recorded(st', slot) ensures !Categorized(st', slot) { assert Recorded(st, slot); }
  }

  lemma DecisionCategories(env: Env, st: State, rk: ReviewKey, action: Action)
    requires env.Valid() && WellFormed(st) && rk in st.reviews
    requires Apply(env, st, rk.kind, st.reviews[rk].event, st.reviews[rk].payload, action).Done?
    ensures var st' := Apply(env, st, rk.kind, st.reviews[rk].event, st.reviews[rk].payload, action).value.0;
            Uncategorizing(st, st')
            && (rk.kind == DeletedCategorized ==> st.reviews[rk].event in st.events
                                                  && !Categorized(st', SlotOf(st.events[st.reviews[rk].event].facts)))
  {
    hide WellFormed, ApplyDeleted, ApplyNewInGap, SpawnDriftDraft, ApplyIncludeExclude, Uncategorizing, Categorized;
    NoneGained(st, st);
    match rk.kind
    case DeletedCategorized => DeletedCategories(env, st, st.reviews[rk].event, action);
    case NewInGap => GapCategories(env, st, st.reviews[rk].event, action);
    case TentativeEvent => IncludeCategories(st, rk.kind, st.reviews[rk].event, action);
    case AllDayEvent => IncludeCategories(st, rk.kind, st.reviews[rk].event, action);
    case SourceDrift =>
      if action == SpawnDraft || action == Replace { DriftCategories(env, st, st.reviews[rk].event, st.reviews[rk].payload, action == Replace); }
    case _ =>
  }

  lemma NoneGained(st: State, st': State)
    requires st'.overlays == st.overlays
    ensures Uncategorizing(st, st')
  {
  }

  lemma DeletedCategories(env: Env, st: State, k: EventKey, action: Action)
    requires env.Valid() && WellFormed(st) && ApplyDeleted(env, st, k, action).Done?
    ensures k in st.events && Uncategorizing(st, ApplyDeleted(env, st, k, action).value)
    ensures !Categorized(ApplyDeleted(env, st, k, action).value, SlotOf(st.events[k].facts))
  {
    assert k in st.events && (action == KeepEntry || action == DropEntry);
    hide WellFormed, ApplyDeleted, Retired;
    if action == KeepEntry { KeepEntryStep(env, st, k); } else { DropEntryStep(env, st, k); }
    RetiredCategories(st, ApplyDeleted(env, st, k, action).value, k);
  }

  lemma RetiredCategories(st: State, st': State, k: EventKey)
    requires k in st.events && Retired(st, st', k)
    ensures Uncategorizing(st, st') && !Categorized(st', SlotOf(st.events[k].facts))
  {
    hide WellFormed, EntriesStep, EventsElsewhere, ReviewsElsewhere, Linked;
    forall slot | Categorized(st', slot) ensures Categorized(st, slot) {
      assert slot != SlotOf(st.events[k].facts);
      assert SameAt(st.overlays, st'.overlays, OverlayKey(slot, CategoryKind));
    }
  }

  lemma GapCategories(env: Env, st: State, k: EventKey, action: Action)
    requires env.Valid() && WellFormed(st) && ApplyNewInGap(env, st, k, action).Done?
    ensures Uncategorizing(st, ApplyNewInGap(env, st, k, action).value)
  {
    if action == UseEvent {
      hide WellFormed, Later, ShrinkAll;
      var ev := st.events[k];
      ShrinkLater(st, env.listRows(st.entries), Interval(ev.facts.start.value, ev.facts.end.value));
    }
  }

  lemma IncludeCategories(st: State, kind: ReviewKind, k: EventKey, action: Action)
    requires ApplyIncludeExclude(st, kind, k, action).Done?
    ensures Uncategorizing(st, ApplyIncludeExclude(st, kind, k, action).value)
  {
  }

  lemma DriftCategories(env: Env, st: State, k: EventKey, payload: Payload, replace: bool)
    requires SpawnDriftDraft(env, st, k, payload, replace).Done?
    ensures Uncategorizing(st, SpawnDriftDraft(env, st, k, payload, replace).value)
  {
    hide FirstConfirmed, Minutes;
  }

  /** Closing an item keeps the invariant, if its slot is left without a category where the decision is to
      drop or keep. */
  lemma ClosedForgone(st: State, st1: State, rk: ReviewKey, item: Review)
    requires WellFormed(st) && Forgone(st) && rk in st.reviews && st1.events == st.events && st1.reviews == st.reviews
    requires Uncategorizing(st, st1)
    requires rk.kind == DeletedCategorized ==> !Categorized(st1, SlotOf(st.events[st.reviews[rk].event].facts))
    ensures Forgone(st1.(reviews := st1.reviews[rk := item]))
  {
    var st' := st1.(reviews := st1.reviews[rk := item]);
    forall q | q in st'.reviews ensures AlignedItem(st', q) { assert AlignedItem(st, q); }
    hide WellFormed, Categorized, Recorded;
    forall slot | Recorded(st', slot) ensures !Categorized(st', slot) {
      SameCategory(st1, st', slot);
      if !Recorded(st, slot) {
        RecordedByClosing(st, st1, rk, item, slot);
        assert AlignedItem(st, rk);
        ItemOfEvent(st, rk);
      }
    }
  }

  lemma RecordedByClosing(st: State, st1: State, rk: ReviewKey, item: Review, slot: Slot)
    requires st1.reviews == st.reviews && Recorded(st1.(reviews := st1.reviews[rk := item]), slot) && !Recorded(st, slot)
    ensures rk.kind == DeletedCategorized && IdentitySlot(rk.identity) == slot
  {
  }

  lemma ItemOfEvent(st: State, rk: ReviewKey)
    requires WellFormed(st) && rk in st.reviews
    ensures st.reviews[rk].event == IdentityKey(rk.identity)
  {
  }

  lemma ResolveForgone(env: Env, st: State, rk: ReviewKey, action: Action)
    requires env.Valid() && WellFormed(st) && Forgone(st) && ResolveReview(env, st, rk, action).Done?
    ensures Forgone(ResolveReview(env, st, rk, action).value)
  {
    hide WellFormed, Forgone, Apply, Applied, Uncategorizing;
    var item := st.reviews[rk];
    var (st1, status) := Apply(env, st, rk.kind, item.event, item.payload, action).value;
    DecisionApplied(env, st, rk, action);
    DecisionCategories(env, st, rk, action);
    AppliedTables(st, st1, rk, action);
    ClosedForgone(st, st1, rk, item.(status := status, action := action));
  }

  lemma AppliedTables(st: State, st': State, rk: ReviewKey, action: Action)
    requires Applied(st, st', rk, action)
    ensures st'.events == st.events && st'.reviews == st.reviews
  {
  }

  lemma ExcludeForgone(env: Env, st: State, k: EventKey)
    requires env.Valid() && WellFormed(st) && Forgone(st) && ExcludeEvent(env, st, k).Done?
    ensures Forgone(ExcludeEvent(env, st, k).value)
  {
    hide WellFormed, DismissDraftsOf;
    var st' := ExcludeEvent(env, st, k).value;
    var id, st1 := ExcludeRows(env, st, k);
    hide EntriesStep;
    forall rk | rk in st'.reviews ensures AlignedItem(st', rk) { assert AlignedItem(st, rk); }
    ExcludeCategories(env, st, k, st1, st');
    forall slot | Recorded(st', slot) ensures !Categorized(st', slot) {
      var q :| q in st'.reviews && q.kind == DeletedCategorized && IdentitySlot(q.identity) == slot
        && st'.reviews[q].status != Open && (st'.reviews[q].action == DropEntry || st'.reviews[q].action == KeepEntry);
      assert st'.reviews[q] == st.reviews[q];
      assert Recorded(st, slot);
    }
  }

  lemma ExcludeCategories(env: Env, st: State, k: EventKey, st1: State, st': State)
    requires env.Valid() && k in st.events && ExcludeEvent(env, st, k) == Done(st')
    requires DismissDraftsOf(env, DropOverlay(st, SlotOf(st.events[k].facts), CategoryKind),
                             IdentityOf(st.events[k].calendar, st.events[k].facts)) == Done(st1)
    ensures Uncategorizing(st, st')
  {
    hide StaleDrafts;
  }

  lemma ActiveForgone(st: State, calendar: int, active: bool)
    requires Forgone(st)
    ensures Forgone(SetCalendarActive(st, calendar, active))
  {
    var st' := SetCalendarActive(st, calendar, active);
    forall rk | rk in st'.reviews ensures AlignedItem(st', rk) { assert AlignedItem(st, rk); }
    forall slot | Recorded(st', slot) ensures !Categorized(st', slot) { assert Recorded(st, slot); }
  }

  lemma RowsForgone(env: Env, st: State, step: Step)
    requires env.Valid() && WellFormed(st) && Forgone(st)
    requires !step.Pull? && !step.Resolve? && !step.ExcludeEv? && !step.SetActive?
    ensures Forgone(Next(env, st, step))
  {
    hide WellFormed, Forgone, SyncEvents, ResolveReview, ExcludeEvent, SetCalendarActive, ConfirmEntry, SplitEntry, Clashes, Minutes, PieceOf;
    if step.Confirm? {
      ConfirmKeepsRest(env, st, step.id, step.policy, step.resolution);
    } else if step.Split? {
      SplitTables(env, st, step.id, step.cuts);
    }
    SameTables(st, Next(env, st, step));
  }

  lemma SplitTables(env: Env, st: State, id: nat, cuts: seq<int>)
    requires env.Valid() && WellFormed(st)
    ensures var st' := SplitEntry(env, st, id, cuts).st; st' == st.(entries := st'.entries, nextEntry := st'.nextEntry)
  {
    hide WellFormed, SplitEntry, Tiles, SumMinutes, WholeMinutes, GoodCuts, SplitInto;
    SplitConserves(env, st, id, cuts);
    var r := SplitEntry(env, st, id, cuts);
    if r.ok {
      var pieces: seq<Interval> :| SplitInto(st, r.st, id, env.zoneOf(st.entries[id].day), pieces);
      SplitIntoTables(st, r.st, id, env.zoneOf(st.entries[id].day), pieces);
    }
  }

  lemma SplitIntoTables(st: State, st': State, id: nat, zone: Zone, pieces: seq<Interval>)
    requires id in st.entries && SplitInto(st, st', id, zone, pieces)
    ensures st' == st.(entries := st'.entries, nextEntry := st'.nextEntry)
  {
  }

  /** Every step keeps the invariant, a sync when its pull is plain. */
  lemma StepForgone(env: Env, st: State, step: Step)
    requires env.Valid() && WellFormed(st) && Forgone(st) && (step.Pull? ==> Plain(st, step.pull))
    ensures Forgone(Next(env, st, step))
  {
    hide WellFormed, Forgone, Plain, SyncEvents, ResolveReview, ExcludeEvent, SetCalendarActive, ConfirmEntry, SplitEntry, ConvertAllDay;
    match step
    case Pull(pull) => if SyncEvents(env, st, pull).Done? { SyncForgone(env, st, pull); }
    case Resolve(rk, action) => if ResolveReview(env, st, rk, action).Done? { ResolveForgone(env, st, rk, action); }
    case ExcludeEv(k) => if ExcludeEvent(env, st, k).Done? { ExcludeForgone(env, st, k); }
    case SetActive(calendar, active) => ActiveForgone(st, calendar, active);
    case _ => RowsForgone(env, st, step);
  }

  /** A run from the empty ledger all of whose pulls are plain. */
  ghost predicate PlainRun(states: seq<State>, envs: seq<Env>, steps: seq<Step>) {
    && Run(states, envs, steps) && states[0] == EMPTY
    && (forall i :: 0 <= i < |steps| && steps[i].Pull? ==> Plain(states[i], steps[i].pull))
  }

  /** In every such run, where it was decided to drop or keep an entry no category is left. */
  lemma {:induction false} RunForgone(states: seq<State>, envs: seq<Env>, steps: seq<Step>, i: nat)
    requires PlainRun(states, envs, steps) && i < |states|
    ensures WellFormed(states[i]) && Forgone(states[i])
  {
    hide WellFormed, Forgone, Next, Plain;
    EmptyForgone();
    RunWellFormed(states, envs, steps, i);
    if i > 0 {
      RunForgone(states, envs, steps, i - 1);
      StepForgone(envs[i - 1], states[i - 1], steps[i - 1]);
      assert states[i - 1 + 1] == Next(envs[i - 1], states[i - 1], steps[i - 1]);
    }
  }

  lemma EmptyForgone()
    ensures WellFormed(EMPTY) && Forgone(EMPTY)
  {
  }

  /** In every such run no sync with a time zone fails, and no sync replays a recorded drop or keep. */
  lemma RunReplaysNothing(states: seq<State>, envs: seq<Env>, steps: seq<Step>, i: nat)
    requires PlainRun(states, envs, steps) && i < |steps| && steps[i].Pull?
    ensures envs[i].hasTz ==> SyncEvents(envs[i], states[i], steps[i].pull).Done?
    ensures Quiet(states[i], states[i + 1], NewSlots(states[i].events, steps[i].pull))
  {
    hide WellFormed, Forgone, Plain, SyncEvents, Quiet;
    RunForgone(states, envs, steps, i);
    assert states[i + 1] == Next(envs[i], states[i], steps[i]);
    SyncReplaysNothing(envs[i], states[i], steps[i].pull);
    QuietWithout(states[i], NewSlots(states[i].events, steps[i].pull));
  }

  lemma QuietWithout(st: State, except: set<Slot>)
    ensures Quiet(st, st, except)
  {
  }
}
