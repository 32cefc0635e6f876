/** One sync as a run of local steps: the invariant it keeps and the frame of each step. */
module LedgerSync {
  import opened Wrappers
  import opened Intervals
  import opened LedgerTypes
  import opened LedgerSpec
  import opened LedgerSteps
  import opened LedgerDrafts

  ghost predicate Keyed(base: map<EventKey, Event>) {
    forall k :: k in base ==> k == KeyOf(base[k].calendar, base[k].facts)
  }

  /** Review items of events that were not stored when the sync began have all been opened by it. */
  ghost predicate NoOldDecisions(base: map<EventKey, Event>, st: State) {
    forall rk :: rk in st.reviews && IdentityKey(rk.identity) !in base ==> st.reviews[rk].status == Open
  }

  ghost predicate PullInv(base: map<EventKey, Event>, s: Sync) {
    && WellFormed(s.st) && Tracks(s.rows, s.st.entries)
    && base.Keys <= s.st.events.Keys
    && NoOldDecisions(base, s.st)
  }

  /** A stored event whose normalized title changes, or that falls out of the answers under which it is proposed. */
  predicate Material(env: Env, base: map<EventKey, Event>, inc: Incoming) {
    var k := IncKey(inc);
    && k in base && base[k].facts != inc.facts
    && (env.normalize(base[k].facts.title) != env.normalize(inc.facts.title)
        || ((base[k].status == Accepted || base[k].status == NoStatus)
            && (inc.status == Declined || inc.status == Tentative || inc.status == NeedsAction)))
  }

  /** The listing and the row ids grow only by one justified proposal for the event. */
  ghost predicate Grew(env: Env, base: map<EventKey, Event>, inc: Incoming, s: Sync, s': Sync) {
    var (id, n) := (IncIdentity(inc), s.st.nextEntry);
    (s'.rows == s.rows && s'.st.nextEntry == n && s'.st.entries.Keys == s.st.entries.Keys)
    || (&& Timed(inc.facts) && !LinkedAs(s.rows, id, Draft) && !LinkedAs(s.rows, id, Confirmed)
        && (AllDismissed(s.rows, id) ==> Material(env, base, inc))
        && s'.st.nextEntry == n + 1 && s'.st.entries.Keys == s.st.entries.Keys + {n}
        && Linked(s'.st.entries[n], id) && s'.st.entries[n].attestation == Draft
        && s'.rows == s.rows + [Row(n, s'.st.entries[n])])
  }

  /** What one pulled event does to the running state. */
  ghost predicate PullEffect(env: Env, base: map<EventKey, Event>, inc: Incoming, s: Sync, s': Sync) {
    && Local(s.st, s'.st, IncKey(inc), SlotOf(inc.facts))
    && ReviewsKept(s.st, s'.st) && ExclusionKept(s.st, s'.st)
    && (IncKey(inc) in base ==> CategoriesKept(s.st, s'.st))
    && Grew(env, base, inc, s, s')
    && |OpenItems(s'.st)| + s.res.flagged == |OpenItems(s.st)| + s'.res.flagged
    && s'.res.removed == s.res.removed
    && (IncKey(inc) in base && base[IncKey(inc)].facts == inc.facts ==> s'.st.events == s.st.events)
    && (IncKey(inc) !in base || base[IncKey(inc)].facts != inc.facts
        ==> IncKey(inc) in s'.st.events && s'.st.events[IncKey(inc)].facts == inc.facts)
  }

  ghost predicate Upserted(st: State, st': State, inc: Incoming) {
    && WellFormed(st') && Local(st, st', IncKey(inc), SlotOf(inc.facts))
    && st' == st.(events := st'.events) && st'.events.Keys == st.events.Keys + {IncKey(inc)}
    && st'.events[IncKey(inc)].facts == inc.facts
  }

  lemma UpsertStep(st: State, inc: Incoming)
    requires WellFormed(st)
    ensures Upserted(st, UpsertEvent(st, inc), inc)
  {
  }

  /** The review handling of a pulled event, whether new or changed. */
  ghost predicate Handled(base: map<EventKey, Event>, st: State, st': State, inc: Incoming, n: nat) {
    && WellFormed(st') && Local(st, st', IncKey(inc), SlotOf(inc.facts))
    && ReviewsKept(st, st') && ExclusionKept(st, st')
    && (IncKey(inc) in base ==> CategoriesKept(st, st'))
    && st'.events == st.events && st'.entries.Keys == st.entries.Keys && st'.nextEntry == st.nextEntry
    && |OpenItems(st')| == |OpenItems(st)| + n
    && (Excluded(st', SlotOf(inc.facts)) || st'.entries == st.entries)
  }

  /** The state in which a pulled event is materialized, after its review handling. */
  ghost predicate Prepared(base: map<EventKey, Event>, inc: Incoming, s: Sync, st1: State, flagged: nat) {
    && WellFormed(st1) && Local(s.st, st1, IncKey(inc), SlotOf(inc.facts)) && ReviewsKept(s.st, st1) && ExclusionKept(s.st, st1)
    && (IncKey(inc) in base ==> CategoriesKept(s.st, st1))
    && st1.entries.Keys == s.st.entries.Keys && st1.nextEntry == s.st.nextEntry
    && base.Keys <= st1.events.Keys && NoOldDecisions(base, st1)
    && |OpenItems(st1)| == |OpenItems(s.st)| + flagged
    && (Excluded(st1, SlotOf(inc.facts)) || st1.entries == s.st.entries)
  }

  lemma ComposePrepared(base: map<EventKey, Event>, inc: Incoming, s: Sync, st0: State, st1: State, n: nat)
    requires PullInv(base, s) && Upserted(s.st, st0, inc) && Handled(base, st0, st1, inc, n)
    ensures Prepared(base, inc, s, st1, n)
    ensures IncKey(inc) in st1.events && st1.events[IncKey(inc)].facts == inc.facts
  {
    hide WellFormed, Tracks, Local, ReviewsKept, NoOldDecisions, CategoriesKept, ExclusionKept, OpenItems;
    SameOpen(s.st, st0);
    NoOldSame(base, s.st, st0);
    NoOldKept(base, st0, st1);
    SameReviewsBefore(s.st, st0, st1);
    SameOverlaysBefore(s.st, st0, st1);
    LocalTrans(s.st, st0, st1, IncKey(inc), SlotOf(inc.facts));
  }

  lemma SameOpen(a: State, b: State)
    requires a.reviews == b.reviews
    ensures OpenItems(a) == OpenItems(b)
  {
  }

  lemma SameReviewsBefore(a: State, b: State, c: State)
    requires ReviewsKept(b, c) && a.reviews == b.reviews
    ensures ReviewsKept(a, c)
  {
  }

  lemma SameOverlaysBefore(a: State, b: State, c: State)
    requires a.overlays == b.overlays && a.reviews == b.reviews
    ensures ExclusionKept(b, c) ==> ExclusionKept(a, c)
    ensures CategoriesKept(b, c) ==> CategoriesKept(a, c)
  {
    if CategoriesKept(b, c) {
      forall slot ensures CategoryFate(a, c, slot) { assert CategoryFate(b, c, slot); }
    }
  }

  lemma HandledNew(env: Env, base: map<EventKey, Event>, st: State, inc: Incoming, rows: seq<Row>)
    requires WellFormed(st) && IncKey(inc) in st.events && AllOpenAt(st, IncKey(inc)) && IncKey(inc) !in base
    ensures HandleNew(env, st, inc, rows).Done?
    ensures var (st', n) := HandleNew(env, st, inc, rows).value; Handled(base, st, st', inc, n)
  {
    HandleNewStep(env, st, inc, rows);
    var (st', n) := HandleNew(env, st, inc, rows).value;
    hide WellFormed, ReviewsKept, AllOpenAt, HandleNew, OpenItems;
    forall slot | Excluded(st, slot) ensures Excluded(st', slot) {
      assert SameAt(st.overlays, st'.overlays, OverlayKey(slot, StatusKind));
    }
  }

  lemma HandledChanged(env: Env, base: map<EventKey, Event>, st: State, ex: Event, inc: Incoming, rows: seq<Row>)
    requires env.Valid() && WellFormed(st)
    requires IncKey(inc) in st.events && st.events[IncKey(inc)].facts == inc.facts
    ensures HandleChanged(env, st, ex, inc, rows).Done?
    ensures var (st', n) := HandleChanged(env, st, ex, inc, rows).value; Handled(base, st, st', inc, n)
  {
    hide WellFormed, Local, ReviewsKept, HandleChanged, OpenItems, CategoriesKept, ExclusionKept;
    HandleChangedStep(env, st, ex, inc, rows);
  }

  lemma PrepareNew(env: Env, base: map<EventKey, Event>, inc: Incoming, s: Sync)
    requires env.Valid() && PullInv(base, s) && IncKey(inc) !in base
    ensures HandleNew(env, UpsertEvent(s.st, inc), inc, s.rows).Done?
    ensures var (st1, flagged) := HandleNew(env, UpsertEvent(s.st, inc), inc, s.rows).value;
            && Prepared(base, inc, s, st1, flagged)
            && IncKey(inc) in st1.events && st1.events[IncKey(inc)].facts == inc.facts
  {
    var st0 := UpsertEvent(s.st, inc);
    UpsertStep(s.st, inc);
    assert AllOpenAt(st0, IncKey(inc));
    assert WellFormed(st0) && IncKey(inc) in st0.events;
    hide PullInv, Upserted, Handled, Prepared, HandleNew, UpsertEvent, WellFormed, AllOpenAt;
    HandledNew(env, base, st0, inc, s.rows);
    var (st1, flagged) := HandleNew(env, st0, inc, s.rows).value;
    ComposePrepared(base, inc, s, st0, st1, flagged);
  }

  lemma NoOldKept(base: map<EventKey, Event>, st: State, st': State)
    requires NoOldDecisions(base, st) && ReviewsKept(st, st')
    ensures NoOldDecisions(base, st')
  {
  }

  lemma PrepareChanged(env: Env, base: map<EventKey, Event>, inc: Incoming, s: Sync)
    requires env.Valid() && PullInv(base, s) && IncKey(inc) in base
    ensures HandleChanged(env, UpsertEvent(s.st, inc), base[IncKey(inc)], inc, s.rows).Done?
    ensures var (st1, flagged) := HandleChanged(env, UpsertEvent(s.st, inc), base[IncKey(inc)], inc, s.rows).value;
            && Prepared(base, inc, s, st1, flagged)
            && IncKey(inc) in st1.events && st1.events[IncKey(inc)].facts == inc.facts
  {
    var st0 := UpsertEvent(s.st, inc);
    UpsertStep(s.st, inc);
    assert WellFormed(st0) && IncKey(inc) in st0.events && st0.events[IncKey(inc)].facts == inc.facts;
    hide PullInv, Upserted, Handled, Prepared, HandleChanged, UpsertEvent, WellFormed;
    HandledChanged(env, base, st0, base[IncKey(inc)], inc, s.rows);
    var (st1, flagged) := HandleChanged(env, st0, base[IncKey(inc)], inc, s.rows).value;
    ComposePrepared(base, inc, s, st0, st1, flagged);
  }

  lemma PreparedTracks(base: map<EventKey, Event>, inc: Incoming, s: Sync, st1: State, flagged: nat)
    requires PullInv(base, s) && Prepared(base, inc, s, st1, flagged)
    ensures Tracks(s.rows, st1.entries)
  {
    TracksSameKeys(s.rows, s.st, st1, IncKey(inc));
  }

  predicate Materialized(env: Env, st: State, inc: Incoming, rows: seq<Row>, material: bool, s': Sync) {
    var m := Materialize(env, st, inc, rows, material);
    m.Done? && m.value.0 == s'.st && m.value.1 == s'.rows
  }

  /** Materializing from a prepared state completes the step. */
  lemma CompletePull(env: Env, base: map<EventKey, Event>, inc: Incoming, s: Sync, st1: State, flagged: nat, s': Sync, material: bool)
    requires PullInv(base, s) && Prepared(base, inc, s, st1, flagged)
    requires Materialized(env, st1, inc, s.rows, material, s')
    requires material ==> Material(env, base, inc)
    requires s'.res.flagged == s.res.flagged + flagged && s'.res.removed == s.res.removed
    requires if IncKey(inc) in base && base[IncKey(inc)].facts == inc.facts then st1.events == s.st.events
             else IncKey(inc) in st1.events && st1.events[IncKey(inc)].facts == inc.facts
    ensures PullInv(base, s') && PullEffect(env, base, inc, s, s')
  {
    PreparedTracks(base, inc, s, st1, flagged);
    MaterializeLocal(env, st1, inc, s.rows, material, s');
    GrewStep(env, base, inc, s, st1, flagged, s', material);
    hide Materialize, Materialized, Grew;
    assert OpenItems(s'.st) == OpenItems(st1);
    hide WellFormed, Tracks, ReviewsKept, NoOldDecisions, Local, EntriesStep, CategoriesKept, ExclusionKept, OpenItems, Material;
    LocalTrans(s.st, st1, s'.st, IncKey(inc), SlotOf(inc.facts));
    ReviewsSame(s.st, st1, s'.st);
    NoOldSame(base, st1, s'.st);
    CategoriesSame(s.st, st1, s'.st);
  }

  lemma MaterializeLocal(env: Env, st: State, inc: Incoming, rows: seq<Row>, material: bool, s': Sync)
    requires WellFormed(st) && Tracks(rows, st.entries) && Materialized(env, st, inc, rows, material, s')
    ensures WellFormed(s'.st) && Tracks(s'.rows, s'.st.entries) && Local(st, s'.st, IncKey(inc), SlotOf(inc.facts))
    ensures s'.st == st.(entries := s'.st.entries, nextEntry := s'.st.nextEntry)
  {
    MaterializeStep(env, st, inc, rows, material);
    hide Materialize, WellFormed, Tracks, EntriesStep, Proposed;
  }

  lemma GrewStep(env: Env, base: map<EventKey, Event>, inc: Incoming, s: Sync, st1: State, flagged: nat, s': Sync, material: bool)
    requires Prepared(base, inc, s, st1, flagged) && Tracks(s.rows, st1.entries)
    requires Materialized(env, st1, inc, s.rows, material, s') && (material ==> Material(env, base, inc))
    ensures Grew(env, base, inc, s, s')
  {
    MaterializeStep(env, st1, inc, s.rows, material);
    hide Materialize, WellFormed, Tracks, EntriesStep, Local, ReviewsKept, CategoriesKept, ExclusionKept, NoOldDecisions, Material;
  }

  lemma ReviewsSame(a: State, b: State, c: State)
    requires ReviewsKept(a, b) && c.reviews == b.reviews
    ensures ReviewsKept(a, c)
  {
  }

  lemma NoOldSame(base: map<EventKey, Event>, b: State, c: State)
    requires NoOldDecisions(base, b) && c.reviews == b.reviews
    ensures NoOldDecisions(base, c)
  {
  }

  lemma CategoriesSame(a: State, b: State, c: State)
    requires c.overlays == b.overlays
    ensures CategoriesKept(a, b) ==> CategoriesKept(a, c)
    ensures ExclusionKept(a, b) ==> ExclusionKept(a, c)
  {
    if CategoriesKept(a, b) {
      forall slot ensures CategoryFate(a, c, slot) { assert CategoryFate(a, b, slot); }
    }
  }

  lemma PrepareSame(base: map<EventKey, Event>, inc: Incoming, s: Sync)
    requires PullInv(base, s)
    ensures Prepared(base, inc, s, s.st, 0)
  {
  }

  lemma PullOneStep(env: Env, base: map<EventKey, Event>, inc: Incoming, s: Sync)
    requires env.Valid() && PullInv(base, s)
    requires PullOne(env, base, inc, s).Done?
    ensures var s' := PullOne(env, base, inc, s).value;
            PullInv(base, s') && PullEffect(env, base, inc, s, s')
  {
    hide PullInv, PullEffect, Prepared, Materialize, HandleNew, HandleChanged, UpsertEvent;
    var k := IncKey(inc);
    var s' := PullOne(env, base, inc, s).value;
    if k !in base {
      PrepareNew(env, base, inc, s);
      var (st1, flagged) := HandleNew(env, UpsertEvent(s.st, inc), inc, s.rows).value;
      CompletePull(env, base, inc, s, st1, flagged, s', false);
    } else if base[k].facts == inc.facts {
      PrepareSame(base, inc, s);
      CompletePull(env, base, inc, s, s.st, 0, s', false);
    } else {
      PrepareChanged(env, base, inc, s);
      var (st1, flagged) := HandleChanged(env, UpsertEvent(s.st, inc), base[k], inc, s.rows).value;
      CompletePull(env, base, inc, s, st1, flagged, s', TitleMaterial(env, base[k], inc) || IncludeDropped(base[k], inc));
    }
  }

  // ── events that vanished from the pull ──────────────────────────────

  function OpenAt(st: State, k: EventKey): set<ReviewKey> {
    set rk | rk in OpenItems(st) && IdentityKey(rk.identity) == k
  }

  ghost predicate VanishInv(s: Sync) {
    WellFormed(s.st) && Tracks(s.rows, s.st.entries)
  }

  /** A vanished event that stays: items may open, a recorded decision may be replayed. */
  ghost predicate Retained(st: State, st': State, ev: Event, n: nat) {
    var (k, slot) := (KeyOf(ev.calendar, ev.facts), SlotOf(ev.facts));
    && WellFormed(st') && Local(st, st', k, slot) && ReviewsKept(st, st')
    && ExclusionKept(st, st') && CategoriesKept(st, st') && st'.events == st.events
    && |OpenItems(st')| == |OpenItems(st)| + n
    && (forall x :: x in st'.entries && x !in st.entries ==> !st'.entries[x].source.Calendar?)
  }

  ghost predicate VanishEffect(seen: set<EventKey>, ev: Event, s: Sync, s': Sync) {
    var (k, slot) := (KeyOf(ev.calendar, ev.facts), SlotOf(ev.facts));
    && s'.rows == s.rows && s'.res.flagged >= s.res.flagged
    && if Stays(seen, ev, s) then Retained(s.st, s'.st, ev, s'.res.flagged - s.res.flagged)
       else s'.st == DeleteEvent(s.st, k) && s'.res.flagged == s.res.flagged
  }

  /** The four reasons for which a vanished event is not deleted. */
  ghost predicate Stays(seen: set<EventKey>, ev: Event, s: Sync) {
    KeyOf(ev.calendar, ev.facts) in seen || Excluded(s.st, SlotOf(ev.facts)) || Categorized(s.st, SlotOf(ev.facts))
    || LinkedAs(s.rows, IdentityOf(ev.calendar, ev.facts), Confirmed)
  }

  lemma {:induction false} ConfirmedIdsExist(rows: seq<Row>, id: Identity)
    ensures ConfirmedIds(rows, id) != [] <==> LinkedAs(rows, id, Confirmed)
  {
    if |rows| > 0 {
      var init, last := rows[..|rows| - 1], rows[|rows| - 1];
      ConfirmedIdsExist(init, id);
      assert rows == init + [last];
      if LinkedAs(init, id, Confirmed) {
        var r :| r in init && Linked(r.te, id) && r.te.attestation == Confirmed;
        assert r in rows;
      }
    }
  }

  lemma RetainedByItems(st: State, st': State, ev: Event, n: nat)
    requires ItemsOpened(st, st', KeyOf(ev.calendar, ev.facts), n)
    ensures Retained(st, st', ev, n)
  {
    hide WellFormed, ReviewsKept, OpenItems, ReviewsElsewhere;
  }

  lemma RetireStep(env: Env, st: State, ev: Event, action: Action)
    requires env.Valid() && WellFormed(st) && Recorded(st, SlotOf(ev.facts))
    requires KeyOf(ev.calendar, ev.facts) in st.events && st.events[KeyOf(ev.calendar, ev.facts)].facts == ev.facts
    requires action == DropEntry || action == KeepEntry
    requires ApplyDeleted(env, st, KeyOf(ev.calendar, ev.facts), action).Done?
    ensures Retained(st, ApplyDeleted(env, st, KeyOf(ev.calendar, ev.facts), action).value, ev, 0)
  {
    hide Retired, ApplyDeleted, WellFormed, Retained, Recorded;
    var k := KeyOf(ev.calendar, ev.facts);
    if action == DropEntry { DropEntryStep(env, st, k); } else { KeepEntryStep(env, st, k); }
    RetiredRetained(st, ApplyDeleted(env, st, k, action).value, ev);
  }

  lemma RetiredRetained(st: State, st': State, ev: Event)
    requires KeyOf(ev.calendar, ev.facts) in st.events && st.events[KeyOf(ev.calendar, ev.facts)].facts == ev.facts
    requires Retired(st, st', KeyOf(ev.calendar, ev.facts)) && Recorded(st, SlotOf(ev.facts))
    ensures Retained(st, st', ev, 0)
  {
    assert OpenItems(st') == OpenItems(st);
    hide WellFormed, EntriesStep, EventsElsewhere, ReviewsElsewhere, Recorded;
  }

  lemma RetainedTrans(a: State, b: State, c: State, ev: Event, n: nat)
    requires Retained(a, b, ev, n) && Retained(b, c, ev, 0) && b.entries == a.entries && c.reviews == b.reviews
    ensures Retained(a, c, ev, n)
  {
    ReviewsSame(a, b, c);
    hide WellFormed, Local, CategoriesKept, ReviewsKept;
    LocalTrans(a, b, c, KeyOf(ev.calendar, ev.facts), SlotOf(ev.facts));
    CategoriesKeptTrans(a, b, c);
  }

  lemma VanishedCategorizedStep(env: Env, st: State, ev: Event)
    requires env.Valid() && WellFormed(st)
    requires KeyOf(ev.calendar, ev.facts) in st.events && st.events[KeyOf(ev.calendar, ev.facts)].facts == ev.facts
    requires OnVanishedCategorized(env, st, ev).Done?
    ensures var (st', n, _) := OnVanishedCategorized(env, st, ev).value; Retained(st, st', ev, n)
  {
    var (k, id) := (KeyOf(ev.calendar, ev.facts), IdentityOf(ev.calendar, ev.facts));
    var rk := ReviewKey(DeletedCategorized, id, WasDeleted);
    EnqueueStep(st, rk, k, Titled(ev.facts.title));
    var (st1, action, n) := EnqueueOrReplay(st, rk, k, Titled(ev.facts.title));
    RetainedByItems(st, st1, ev, n);
    assert WellFormed(st1);
    if action == DropEntry || action == KeepEntry {
      assert rk in st.reviews && IdentitySlot(rk.identity) == SlotOf(ev.facts);
      assert Recorded(st1, SlotOf(ev.facts));
      hide WellFormed, Retained, ReviewsElsewhere, ReviewsKept, ItemsOpened, Recorded;
      assert Apply(env, st1, DeletedCategorized, k, NoPayload, action).Done?;
      RetireStep(env, st1, ev, action);
      var st2 := ApplyDeleted(env, st1, k, action).value;
      assert OnVanishedCategorized(env, st, ev).value.0 == st2;
      assert st2.reviews == st1.reviews by { RetireReviews(env, st1, k, action); }
      RetainedTrans(st, st1, st2, ev, n);
    }
  }

  lemma RetireReviews(env: Env, st: State, k: EventKey, action: Action)
    requires env.Valid() && WellFormed(st) && k in st.events
    requires action == DropEntry || action == KeepEntry
    requires ApplyDeleted(env, st, k, action).Done?
    ensures ApplyDeleted(env, st, k, action).value.reviews == st.reviews
  {
    if action == DropEntry { DropEntryStep(env, st, k); } else { KeepEntryStep(env, st, k); }
  }

  lemma VanishOneStep(env: Env, seen: set<EventKey>, ev: Event, s: Sync)
    requires env.Valid() && VanishInv(s)
    requires KeyOf(ev.calendar, ev.facts) in seen
             || (KeyOf(ev.calendar, ev.facts) in s.st.events && s.st.events[KeyOf(ev.calendar, ev.facts)].facts == ev.facts)
    requires VanishOne(env, seen, ev, s).Done?
    ensures VanishEffect(seen, ev, s, VanishOne(env, seen, ev, s).value)
  {
    hide VanishEffect, VanishOne, LinkedAs;
    ConfirmedIdsExist(s.rows, IdentityOf(ev.calendar, ev.facts));
    if KeyOf(ev.calendar, ev.facts) in seen || Excluded(s.st, SlotOf(ev.facts))
       || (!Categorized(s.st, SlotOf(ev.facts)) && !LinkedAs(s.rows, IdentityOf(ev.calendar, ev.facts), Confirmed)) {
      VanishPlainCase(env, seen, ev, s);
    } else if Categorized(s.st, SlotOf(ev.facts)) {
      VanishCategorizedCase(env, seen, ev, s);
    } else {
      VanishConfirmedCase(env, seen, ev, s);
    }
  }

  lemma VanishPlainCase(env: Env, seen: set<EventKey>, ev: Event, s: Sync)
    requires WellFormed(s.st)
    requires KeyOf(ev.calendar, ev.facts) in seen || Excluded(s.st, SlotOf(ev.facts))
             || (!Categorized(s.st, SlotOf(ev.facts)) && !LinkedAs(s.rows, IdentityOf(ev.calendar, ev.facts), Confirmed))
    ensures VanishOne(env, seen, ev, s).Done? && VanishEffect(seen, ev, s, VanishOne(env, seen, ev, s).value)
  {
    hide Retained, DeleteEvent, LinkedAs;
    ConfirmedIdsExist(s.rows, IdentityOf(ev.calendar, ev.facts));
    RetainedAsIs(s.st, ev);
  }

  lemma VanishCategorizedCase(env: Env, seen: set<EventKey>, ev: Event, s: Sync)
    requires env.Valid() && WellFormed(s.st)
    requires KeyOf(ev.calendar, ev.facts) in s.st.events && s.st.events[KeyOf(ev.calendar, ev.facts)].facts == ev.facts
    requires KeyOf(ev.calendar, ev.facts) !in seen && !Excluded(s.st, SlotOf(ev.facts)) && Categorized(s.st, SlotOf(ev.facts))
    requires VanishOne(env, seen, ev, s).Done?
    ensures VanishEffect(seen, ev, s, VanishOne(env, seen, ev, s).value)
  {
    VanishedCategorizedStep(env, s.st, ev);
    hide WellFormed, Retained, LinkedAs, OnVanishedCategorized;
    var (st1, n, _) := OnVanishedCategorized(env, s.st, ev).value;
    var s' := VanishOne(env, seen, ev, s).value;
    assert s'.st == st1 && s'.res.flagged == s.res.flagged + n;
  }

  lemma VanishConfirmedCase(env: Env, seen: set<EventKey>, ev: Event, s: Sync)
    requires WellFormed(s.st) && KeyOf(ev.calendar, ev.facts) in s.st.events
    requires KeyOf(ev.calendar, ev.facts) !in seen && !Excluded(s.st, SlotOf(ev.facts)) && !Categorized(s.st, SlotOf(ev.facts))
    requires LinkedAs(s.rows, IdentityOf(ev.calendar, ev.facts), Confirmed)
    ensures VanishOne(env, seen, ev, s).Done? && VanishEffect(seen, ev, s, VanishOne(env, seen, ev, s).value)
    ensures DriftItem(VanishOne(env, seen, ev, s).value.st, IdentityOf(ev.calendar, ev.facts), DeletedPayload(s.rows, ev))
  {
    var (k, id) := (KeyOf(ev.calendar, ev.facts), IdentityOf(ev.calendar, ev.facts));
    ConfirmedIdsExist(s.rows, id);
    var (st', n) := EnqueueDrift(s.st, k, id, DeletedPayload(s.rows, ev));
    DriftStep(s.st, k, id, DeletedPayload(s.rows, ev));
    hide WellFormed, Retained, LinkedAs, EnqueueDrift, DeletedPayload, ItemsOpened;
    RetainedByItems(s.st, st', ev, n);
  }

  lemma RetainedAsIs(st: State, ev: Event)
    requires WellFormed(st)
    ensures Retained(st, st, ev, 0)
  {
  }

  lemma DeleteStep(st: State, k: EventKey, slot: Slot)
    requires WellFormed(st)
    ensures var st' := DeleteEvent(st, k);
            && WellFormed(st') && Local(st, st', k, slot) && ExclusionKept(st, st') && CategoriesKept(st, st')
            && OpenItems(st') == OpenItems(st) - OpenAt(st, k)
  {
    hide WellFormed, Local, OpenItems, OpenAt;
    DeleteLocal(st, k, slot);
    DeleteOpen(st, k);
  }

  lemma DeleteLocal(st: State, k: EventKey, slot: Slot)
    requires WellFormed(st)
    ensures WellFormed(DeleteEvent(st, k)) && Local(st, DeleteEvent(st, k), k, slot)
  {
  }

  lemma DeleteOpen(st: State, k: EventKey)
    requires WellFormed(st)
    ensures OpenItems(DeleteEvent(st, k)) == OpenItems(st) - OpenAt(st, k)
  {
  }
}
