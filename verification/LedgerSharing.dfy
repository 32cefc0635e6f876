/** When a sync fails and which events it deletes, for every ledger and every pull that names no event twice:
    also where several events share an overlay slot. */
module LedgerSharing {
  import opened Wrappers
  import opened LedgerTypes
  import opened LedgerSpec
  import opened LedgerSteps
  import opened LedgerDrafts
  import opened LedgerSync
  import opened LedgerRuns
  import opened LedgerTheorems
  import opened LedgerIdempotence
  import opened LedgerCategories
  import opened LedgerFlags
  import opened LedgerConflicts
  import opened LedgerOutcome
  import opened LedgerForgone

  // ── a slot through the pull loop ────────────────────────────────────

  /** Some source of automatic categories has one for the event. */
  predicate Gives(env: Env, inc: Incoming) {
    Precedence(env, None, inc).Some?
  }

  ghost predicate Supplies(env: Env, st: State, inc: Incoming, slot: Slot) {
    IncKey(inc) !in st.events && SlotOf(inc.facts) == slot && Gives(env, inc)
  }

  /** The slot has a category, or one of the first `n` pulled events is new and brings one. */
  ghost predicate Supplied(env: Env, st: State, pull: seq<Incoming>, n: nat, slot: Slot)
    requires n <= |pull|
  {
    Categorized(st, slot) || exists i :: 0 <= i < n && Supplies(env, st, pull[i], slot)
  }

  /** A declined and changed event whose drop is recorded. */
  ghost predicate Redropped(st: State, inc: Incoming, slot: Slot) {
    && IncKey(inc) in st.events && st.events[IncKey(inc)].facts != inc.facts && SlotOf(inc.facts) == slot
    && inc.status == Declined && RecordedDrop(st, inc)
  }

  /** One of the first `n` pulled events has its drop replayed, which excludes the slot. */
  ghost predicate Withdrawn(env: Env, st: State, pull: seq<Incoming>, n: nat, slot: Slot)
    requires n <= |pull|
  {
    exists i :: 0 <= i < n && Redropped(st, pull[i], slot) && Supplied(env, st, pull, i, slot)
  }

  /** The slot has a category and no exclusion: recorded decisions about its events are looked up. */
  ghost predicate Live(st: State, slot: Slot) {
    !Excluded(st, slot) && Categorized(st, slot)
  }

  /** The slot has neither: its events have no reason of this kind to be kept. */
  ghost predicate Bare(st: State, slot: Slot) {
    !Excluded(st, slot) && !Categorized(st, slot)
  }

  ghost predicate Alike(a: State, b: State, slot: Slot) {
    (Live(a, slot) <==> Live(b, slot)) && (Bare(a, slot) <==> Bare(b, slot))
  }

  lemma PrecedenceGives(env: Env, had: Option<int>, inc: Incoming)
    ensures Precedence(env, had, inc).Some? <==> had.Some? || Gives(env, inc)
  {
  }

  lemma StatusByNew(env: Env, base: map<EventKey, Event>, inc: Incoming, s: Sync)
    requires env.Valid() && PullInv(base, s) && IncKey(inc) !in base && PullOne(env, base, inc, s).Done?
    ensures Excluded(PullOne(env, base, inc, s).value.st, SlotOf(inc.facts)) <==> Excluded(s.st, SlotOf(inc.facts))
  {
    hide PullInv, Prepared, HandleNew, AllOpenAt, WellFormed, Materialize, ReviewsKept, OpenItems, Local;
    var st0 := UpsertEvent(s.st, inc);
    NewlyStored(base, inc, s);
    PrepareNew(env, base, inc, s);
    HandleNewStep(env, st0, inc, s.rows);
    var (st1, flagged) := HandleNew(env, st0, inc, s.rows).value;
    MaterializedTables(env, base, inc, s, st1, flagged, false);
  }

  lemma UndroppedDecline(env: Env, st: State, inc: Incoming)
    requires env.Valid() && WellFormed(st) && IncKey(inc) in st.events && st.events[IncKey(inc)].facts == inc.facts
    requires inc.status == Declined ==> !RecordedDrop(st, inc)
    ensures OnDeclined(env, st, inc).Done? && OnDeclined(env, st, inc).value.0.overlays == st.overlays
  {
    hide WellFormed, ApplyDeleted, EnqueueOrReplay;
    EnqueueReplays(st, DeclinedKey(inc), IncKey(inc), Titled(inc.facts.title));
    EnqueueItemsOnly(st, DeclinedKey(inc), IncKey(inc), Titled(inc.facts.title));
  }

  /** A changed event touches its slot only by the replay of a recorded drop. */
  lemma ChangedOverlays(env: Env, st: State, ex: Event, inc: Incoming, rows: seq<Row>)
    requires env.Valid() && WellFormed(st) && IncKey(inc) in st.events && st.events[IncKey(inc)].facts == inc.facts
    requires !(Categorized(st, SlotOf(inc.facts)) && inc.status == Declined && RecordedDrop(st, inc))
    ensures HandleChanged(env, st, ex, inc, rows).Done? && HandleChanged(env, st, ex, inc, rows).value.0.overlays == st.overlays
  {
    hide WellFormed, LinkedAs, TitleMaterial, OnDeclined, EnqueueOrReplay, DriftedIds, Categorized, OnConfirmedSourceDrift, RecordedDrop;
    DriftTables(st, inc, rows);
    DriftLeaves(env, st, ex, inc, rows);
    var (st1, _) := OnConfirmedSourceDrift(st, inc, rows);
    SameCategory(st, st1, SlotOf(inc.facts));
    if Categorized(st1, SlotOf(inc.facts)) {
      SameDrop(st, st1, inc);
      var rk := RetitledKey(env, ex, inc);
      EnqueueItemsOnly(st1, rk, IncKey(inc), Renamed(ex.facts.title, inc.facts.title));
      RetitledItem(env, st1, ex, inc);
      OnRetitledKeeps(env, st1, ex, inc);
      var (st2, _) := OnRetitled(env, st1, ex, inc);
      SameDrop(st1, st2, inc);
      UndroppedDecline(env, st2, inc);
    }
  }

  /** What one pulled event does to its own slot. */
  lemma OwnSlot(env: Env, base: map<EventKey, Event>, inc: Incoming, s: Sync)
    requires env.Valid() && PullInv(base, s) && PullOne(env, base, inc, s).Done?
    ensures var (st', slot) := (PullOne(env, base, inc, s).value.st, SlotOf(inc.facts));
            if IncKey(inc) !in base then
              && (Excluded(st', slot) <==> Excluded(s.st, slot))
              && (Categorized(st', slot) <==> Categorized(s.st, slot) || Gives(env, inc))
            else if base[IncKey(inc)].facts != inc.facts && inc.status == Declined && RecordedDrop(s.st, inc) && Categorized(s.st, slot) then
              Excluded(st', slot)
            else st'.overlays == s.st.overlays
  {
    hide PullInv, Prepared, HandleNew, HandleChanged, AllOpenAt, WellFormed, Materialize, Precedence, RecordedDrop;
    var k := IncKey(inc);
    if k !in base {
      StatusByNew(env, base, inc, s);
      GivenByPull(env, base, inc, s);
      PrecedenceGives(env, EffectiveCategory(s.st, SlotOf(inc.facts)), inc);
    } else if base[k].facts == inc.facts {
      PrepareSame(base, inc, s);
      MaterializedTables(env, base, inc, s, s.st, 0, false);
    } else {
      OwnSlotChanged(env, base, inc, s);
    }
  }

  lemma OwnSlotChanged(env: Env, base: map<EventKey, Event>, inc: Incoming, s: Sync)
    requires env.Valid() && PullInv(base, s) && PullOne(env, base, inc, s).Done?
    requires IncKey(inc) in base && base[IncKey(inc)].facts != inc.facts
    ensures var (st', slot) := (PullOne(env, base, inc, s).value.st, SlotOf(inc.facts));
            if inc.status == Declined && RecordedDrop(s.st, inc) && Categorized(s.st, slot) then Excluded(st', slot)
            else st'.overlays == s.st.overlays
  {
    hide PullInv, Prepared, HandleChanged, AllOpenAt, WellFormed, Materialize, RecordedDrop, Categorized, Excluded;
    var (k, slot) := (IncKey(inc), SlotOf(inc.facts));
    var st0 := UpsertEvent(s.st, inc);
    StoredFirst(base, inc, s);
    PrepareChanged(env, base, inc, s);
    var (st1, flagged) := HandleChanged(env, st0, base[k], inc, s.rows).value;
    MaterializedTables(env, base, inc, s, st1, flagged, TitleMaterial(env, base[k], inc) || IncludeDropped(base[k], inc));
    SameCategory(s.st, st0, slot);
    SameDrop(s.st, st0, inc);
    SameExclusion(st1, PullOne(env, base, inc, s).value.st, slot);
    if inc.status == Declined && RecordedDrop(s.st, inc) && Categorized(s.st, slot) {
      RedroppedExcludes(env, st0, base[k], inc, s.rows);
    } else {
      ChangedOverlays(env, st0, base[k], inc, s.rows);
    }
  }

  lemma SameExclusion(a: State, b: State, slot: Slot)
    requires a.overlays == b.overlays
    ensures Excluded(a, slot) <==> Excluded(b, slot)
  {
  }

  lemma RedroppedExcludes(env: Env, st: State, ex: Event, inc: Incoming, rows: seq<Row>)
    requires env.Valid() && WellFormed(st) && IncKey(inc) in st.events && st.events[IncKey(inc)].facts == inc.facts
    requires Categorized(st, SlotOf(inc.facts)) && inc.status == Declined && RecordedDrop(st, inc)
    ensures HandleChanged(env, st, ex, inc, rows).Done? && Excluded(HandleChanged(env, st, ex, inc, rows).value.0, SlotOf(inc.facts))
  {
    hide WellFormed, LinkedAs, TitleMaterial, OnDeclined, EnqueueOrReplay, DriftedIds, Categorized, OnConfirmedSourceDrift, RecordedDrop, OnRetitled, Excluded;
    DriftTables(st, inc, rows);
    DriftLeaves(env, st, ex, inc, rows);
    var (st1, _) := OnConfirmedSourceDrift(st, inc, rows);
    SameCategory(st, st1, SlotOf(inc.facts));
    SameDrop(st, st1, inc);
    RetitledItem(env, st1, ex, inc);
    OnRetitledKeeps(env, st1, ex, inc);
    var (st2, _) := OnRetitled(env, st1, ex, inc);
    SameDrop(st1, st2, inc);
    DeclinedItem(env, st2, ex, inc);
  }

  /** The slot after the first `n` pulled events. */
  ghost predicate SlotAfter(env: Env, st: State, pull: seq<Incoming>, n: nat, mid: State, slot: Slot)
    requires n <= |pull|
  {
    && (!Excluded(mid, slot) <==> !Excluded(st, slot) && !Withdrawn(env, st, pull, n, slot))
    && (!Excluded(mid, slot) ==> (Categorized(mid, slot) <==> Supplied(env, st, pull, n, slot)))
  }

  lemma SuppliedNext(env: Env, st: State, pull: seq<Incoming>, n: nat, slot: Slot)
    requires n < |pull|
    ensures Supplied(env, st, pull, n + 1, slot) <==> Supplied(env, st, pull, n, slot) || Supplies(env, st, pull[n], slot)
  {
    hide Supplies, Categorized;
  }

  lemma WithdrawnNext(env: Env, st: State, pull: seq<Incoming>, n: nat, slot: Slot)
    requires n < |pull|
    ensures Withdrawn(env, st, pull, n + 1, slot)
       <==> Withdrawn(env, st, pull, n, slot) || (Redropped(st, pull[n], slot) && Supplied(env, st, pull, n, slot))
  {
    hide Supplied, Redropped;
  }

  lemma OtherSlot(env: Env, base: map<EventKey, Event>, inc: Incoming, s: Sync, s': Sync, slot: Slot)
    requires PullEffect(env, base, inc, s, s') && slot != SlotOf(inc.facts)
    ensures (Excluded(s'.st, slot) <==> Excluded(s.st, slot)) && (Categorized(s'.st, slot) <==> Categorized(s.st, slot))
  {
    LocalFrames(s.st, s'.st, IncKey(inc), SlotOf(inc.facts));
    assert SlotFrame(s.st, s'.st, slot);
    hide PullEffect, KeyFrame, Evolved;
  }

  lemma ExclusionByPull(env: Env, base: map<EventKey, Event>, inc: Incoming, s: Sync, s': Sync, slot: Slot)
    requires PullEffect(env, base, inc, s, s') && Excluded(s.st, slot)
    ensures Excluded(s'.st, slot)
  {
    hide Local, Grew, ReviewsKept, CategoriesKept, OpenItems;
  }

  lemma SlotStep(env: Env, st: State, pull: seq<Incoming>, n: nat, mid: Sync, after: Sync, slot: Slot)
    requires env.Valid() && n < |pull| && PullInv(st.events, mid) && KeyFrame(st, mid.st, IncKey(pull[n]))
    requires PullOne(env, st.events, pull[n], mid) == Done(after) && SlotAfter(env, st, pull, n, mid.st, slot)
    ensures SlotAfter(env, st, pull, n + 1, after.st, slot)
  {
    hide PullInv, PullOne, PullEffect, Supplied, Withdrawn, Categorized, Excluded, RecordedDrop, KeyFrame, Gives;
    var inc := pull[n];
    PullOneStep(env, st.events, inc, mid);
    SuppliedNext(env, st, pull, n, slot);
    WithdrawnNext(env, st, pull, n, slot);
    if slot != SlotOf(inc.facts) {
      OtherSlot(env, st.events, inc, mid, after, slot);
    } else {
      OwnSlot(env, st.events, inc, mid);
      SameDropAt(st, mid.st, inc);
      SameExclusionIf(mid.st, after.st, slot);
      if Excluded(mid.st, slot) { ExclusionByPull(env, st.events, inc, mid, after, slot); }
    }
  }

  lemma SameDropAt(st: State, st': State, inc: Incoming)
    requires KeyFrame(st, st', IncKey(inc))
    ensures RecordedDrop(st, inc) <==> RecordedDrop(st', inc)
  {
    assert SameAt(st.reviews, st'.reviews, DeclinedKey(inc));
  }

  lemma SameExclusionIf(a: State, b: State, slot: Slot)
    ensures a.overlays == b.overlays ==> (Excluded(a, slot) <==> Excluded(b, slot)) && (Categorized(a, slot) <==> Categorized(b, slot))
  {
  }

  lemma {:induction false} SlotsAfter(env: Env, st: State, pull: seq<Incoming>, n: nat, slot: Slot) returns (mid: Sync)
    requires env.Valid() && WellFormed(st) && DistinctKeys(pull) && n <= |pull|
    requires PullAll(env, st.events, pull, Start(env, st)).Done?
    ensures PullAll(env, st.events, pull[..n], Start(env, st)) == Done(mid) && PullInv(st.events, mid)
    ensures SlotAfter(env, st, pull, n, mid.st, slot)
  {
    hide WellFormed, PullInv, PullsEffect, Proposals, PullOne, KeyFrame, DistinctKeys, SlotAfter;
    var s0 := Start(env, st);
    StartInv(env, st);
    PrefixDone(env, st.events, pull, s0, n);
    if n == 0 {
      mid := s0;
      assert pull[..0] == [];
      SlotAtStart(env, st, pull, slot);
    } else {
      var before := SlotsAfter(env, st, pull, n - 1, slot);
      var (init, inc) := (pull[..n - 1], pull[n - 1]);
      assert pull[..n] == init + [inc] && pull[..n][..n - 1] == init;
      mid := PullAll(env, st.events, pull[..n], s0).value;
      PullAllStep(env, st.events, init, s0);
      PullOneStep(env, st.events, inc, before);
      FreshKey(pull, n);
      KeyOutside(init, inc, s0, before);
      SlotStep(env, st, pull, n - 1, before, mid, slot);
    }
  }

  lemma SlotAtStart(env: Env, st: State, pull: seq<Incoming>, slot: Slot)
    ensures SlotAfter(env, st, pull, 0, st, slot)
  {
  }

  lemma FreshKey(pull: seq<Incoming>, n: nat)
    requires DistinctKeys(pull) && 0 < n <= |pull|
    ensures IncKey(pull[n - 1]) !in Keys(pull[..n - 1])
  {
  }

  // ── a slot through the vanish loop ──────────────────────────────────

  function DeletedKey(ev: Event): ReviewKey {
    ReviewKey(DeletedCategorized, IdentityOf(ev.calendar, ev.facts), WasDeleted)
  }

  predicate Answer(st: State, ev: Event, action: Action) {
    DeletedKey(ev) in st.reviews && st.reviews[DeletedKey(ev)].status != Open && st.reviews[DeletedKey(ev)].action == action
  }

  /** It was decided to drop or keep the entry of the deleted event. */
  predicate Answered(st: State, ev: Event) {
    Answer(st, ev, DropEntry) || Answer(st, ev, KeepEntry)
  }

  lemma SameAnswers(st: State, st': State, ev: Event)
    requires KeyFrame(st, st', EvKey(ev))
    ensures forall action :: Answer(st, ev, action) <==> Answer(st', ev, action)
  {
    assert SameAt(st.reviews, st'.reviews, DeletedKey(ev));
  }

  /** A vanished event touches overlays only by the replay of a recorded decision, which excludes its slot. */
  lemma VanishSlot(env: Env, seen: set<EventKey>, ev: Event, s: Sync)
    requires env.Valid() && VanishInv(s) && VanishOne(env, seen, ev, s).Done?
    requires EvKey(ev) !in seen ==> EvKey(ev) in s.st.events && s.st.events[EvKey(ev)].facts == ev.facts
    ensures var st' := VanishOne(env, seen, ev, s).value.st;
            if EvKey(ev) !in seen && Live(s.st, SlotOf(ev.facts)) && Answered(s.st, ev) then
              Excluded(st', SlotOf(ev.facts))
              && forall slot :: slot != SlotOf(ev.facts) ==> Alike(s.st, st', slot)
            else st'.overlays == s.st.overlays
  {
    hide WellFormed, Tracks, DeletedPayload, ConfirmedIds, OnVanishedCategorized, Excluded, Categorized, DeleteEvent, Answered;
    if EvKey(ev) !in seen && Live(s.st, SlotOf(ev.facts)) {
      CategorizedSlot(env, s.st, ev);
    } else {
      DeletedOverlays(s.st, EvKey(ev));
    }
  }

  lemma DeletedOverlays(st: State, k: EventKey)
    ensures DeleteEvent(st, k).overlays == st.overlays
  {
  }

  lemma CategorizedSlot(env: Env, st: State, ev: Event)
    requires env.Valid() && WellFormed(st) && EvKey(ev) in st.events && st.events[EvKey(ev)].facts == ev.facts
    requires OnVanishedCategorized(env, st, ev).Done?
    ensures var st' := OnVanishedCategorized(env, st, ev).value.0;
            if Answered(st, ev) then
              Excluded(st', SlotOf(ev.facts)) && forall slot :: slot != SlotOf(ev.facts) ==> Alike(st, st', slot)
            else st'.overlays == st.overlays
  {
    hide WellFormed, ApplyDeleted, EnqueueOrReplay, Retired, Live, Bare;
    var (k, rk) := (EvKey(ev), DeletedKey(ev));
    EnqueueReplays(st, rk, k, Titled(ev.facts.title));
    EnqueueItemsOnly(st, rk, k, Titled(ev.facts.title));
    var (st1, action, _) := EnqueueOrReplay(st, rk, k, Titled(ev.facts.title));
    if action == DropEntry || action == KeepEntry {
      if action == DropEntry { DropEntryStep(env, st1, k); } else { KeepEntryStep(env, st1, k); }
      var st2 := ApplyDeleted(env, st1, k, action).value;
      RetiredSlots(st1, st2, k);
      SameLive(st, st1);
      forall slot | slot != SlotOf(ev.facts) ensures Alike(st, st2, slot) { assert Alike(st, st1, slot) && Alike(st1, st2, slot); }
    }
  }

  lemma SameLive(a: State, b: State)
    requires a.overlays == b.overlays
    ensures forall slot :: Alike(a, b, slot)
  {
  }

  lemma RetiredSlots(st: State, st': State, k: EventKey)
    requires k in st.events && Retired(st, st', k)
    ensures Excluded(st', SlotOf(st.events[k].facts))
    ensures forall slot :: slot != SlotOf(st.events[k].facts) ==> Alike(st, st', slot)
  {
    hide WellFormed, EntriesStep, EventsElsewhere, ReviewsElsewhere, Linked;
    forall slot | slot != SlotOf(st.events[k].facts) ensures Alike(st, st', slot) {
      assert SameAt(st.overlays, st'.overlays, OverlayKey(slot, CategoryKind));
      assert SameAt(st.overlays, st'.overlays, OverlayKey(slot, StatusKind));
    }
  }

  /** A vanished event of the slot with a recorded decision is among the listed ones. */
  ghost predicate Settles(st: State, seen: set<EventKey>, gone: seq<Event>, slot: Slot) {
    exists i :: 0 <= i < |gone| && SettlesAt(st, seen, gone[i], slot)
  }

  ghost predicate SettlesAt(st: State, seen: set<EventKey>, ev: Event, slot: Slot) {
    EvKey(ev) !in seen && SlotOf(ev.facts) == slot && Answered(st, ev)
  }

  /** The first recorded decision about its live slot is to keep an entry that has no times. */
  ghost predicate FailsAt(st: State, seen: set<EventKey>, gone: seq<Event>, j: nat)
    requires j < |gone|
  {
    var ev := gone[j];
    && EvKey(ev) !in seen && Live(st, SlotOf(ev.facts)) && Answer(st, ev, KeepEntry) && !Timed(ev.facts)
    && !Settles(st, seen, gone[..j], SlotOf(ev.facts))
  }

  ghost predicate FailsSomewhere(st: State, seen: set<EventKey>, gone: seq<Event>) {
    exists j :: 0 <= j < |gone| && FailsAt(st, seen, gone, j)
  }

  lemma SettlesPush(st: State, seen: set<EventKey>, init: seq<Event>, ev: Event, slot: Slot)
    ensures Settles(st, seen, init + [ev], slot) <==> Settles(st, seen, init, slot) || SettlesAt(st, seen, ev, slot)
  {
    hide SettlesAt;
    var gone := init + [ev];
    if Settles(st, seen, init, slot) {
      var i :| 0 <= i < |init| && SettlesAt(st, seen, init[i], slot);
      assert gone[i] == init[i];
    }
    assert gone[|init|] == ev;
  }

  lemma FailsPush(st: State, seen: set<EventKey>, init: seq<Event>, ev: Event)
    ensures FailsSomewhere(st, seen, init + [ev]) <==> FailsSomewhere(st, seen, init) || FailsAt(st, seen, init + [ev], |init|)
  {
    var gone := init + [ev];
    forall j | 0 <= j < |init| ensures FailsAt(st, seen, gone, j) <==> FailsAt(st, seen, init, j) {
      assert gone[..j] == init[..j] && gone[j] == init[j];
    }
    hide FailsAt;
  }

  /** The vanish loop: what is live after it, and when it fails. */
  lemma {:induction false} VanishSlots(env: Env, seen: set<EventKey>, gone: seq<Event>, s: Sync)
    requires env.Valid() && env.hasTz && VanishInv(s) && Distinct(gone)
    requires forall ev :: ev in gone && EvKey(ev) !in seen ==> EvKey(ev) in s.st.events && s.st.events[EvKey(ev)].facts == ev.facts
    ensures VanishAll(env, seen, gone, s).Failed? <==> FailsSomewhere(s.st, seen, gone)
    ensures VanishAll(env, seen, gone, s).Done? ==>
              forall slot :: Live(VanishAll(env, seen, gone, s).value.st, slot) <==> Live(s.st, slot) && !Settles(s.st, seen, gone, slot)
  {
    hide VanishRun, VanishInv, VanishOne, Distinct, Live, Settles, FailsSomewhere, FailsAt;
    if |gone| == 0 {
      NothingSettles(s.st, seen, gone);
    } else {
      var init, ev := gone[..|gone| - 1], gone[|gone| - 1];
      assert gone == init + [ev];
      InitDistinct(seen, init, ev);
      VanishSlots(env, seen, init, s);
      FailsPush(s.st, seen, init, ev);
      if VanishAll(env, seen, init, s).Done? {
        VanishAllStep(env, seen, init, s);
        LastSlot(env, seen, init, ev, s, VanishAll(env, seen, init, s).value);
      }
    }
  }

  lemma NothingSettles(st: State, seen: set<EventKey>, gone: seq<Event>)
    requires gone == []
    ensures !FailsSomewhere(st, seen, gone) && forall slot :: !Settles(st, seen, gone, slot)
  {
  }

  lemma LastSlot(env: Env, seen: set<EventKey>, init: seq<Event>, ev: Event, s: Sync, mid: Sync)
    requires env.Valid() && env.hasTz && VanishRun(seen, init, s, mid)
    requires EvKey(ev) !in seen ==> EvKey(ev) in s.st.events && s.st.events[EvKey(ev)].facts == ev.facts
    requires EvKey(ev) !in seen ==> EvKey(ev) !in GoneKeys(seen, init)
    requires forall slot :: Live(mid.st, slot) <==> Live(s.st, slot) && !Settles(s.st, seen, init, slot)
    ensures VanishOne(env, seen, ev, mid).Failed? <==> FailsAt(s.st, seen, init + [ev], |init|)
    ensures VanishOne(env, seen, ev, mid).Done? ==>
              forall slot :: Live(VanishOne(env, seen, ev, mid).value.st, slot) <==> Live(s.st, slot) && !Settles(s.st, seen, init + [ev], slot)
  {
    hide VanishRun, VanishInv, VanishOne, Settles, KeyFrame, GoneKeys, Answer, Excluded, Categorized, Unkeepable;
    var slot := SlotOf(ev.facts);
    assert (init + [ev])[..|init|] == init && (init + [ev])[|init|] == ev;
    StillStored(seen, init, ev, s, mid);
    VanishOneFails(env, seen, ev, mid);
    if EvKey(ev) !in seen {
      VanishReady(seen, init, ev, s, mid);
      SameAnswers(s.st, mid.st, ev);
      UnkeepableIs(mid.st, ev);
    }
    if VanishOne(env, seen, ev, mid).Done? {
      VanishSlot(env, seen, ev, mid);
      var st' := VanishOne(env, seen, ev, mid).value.st;
      if st'.overlays == mid.st.overlays { SameLive(mid.st, st'); }
      forall other ensures Live(st', other) <==> Live(s.st, other) && !Settles(s.st, seen, init + [ev], other) {
        SettlesPush(s.st, seen, init, ev, other);
        assert other != slot || st'.overlays == mid.st.overlays ==> Alike(mid.st, st', other);
      }
    }
  }

  lemma UnkeepableIs(st: State, ev: Event)
    ensures Unkeepable(st, ev) <==> Live(st, SlotOf(ev.facts)) && Answer(st, ev, KeepEntry) && !Timed(ev.facts)
  {
  }

  // ── the whole sync ──────────────────────────────────────────────────

  /** After the pull loop the slot is live. */
  ghost predicate LiveAfter(env: Env, st: State, pull: seq<Incoming>, slot: Slot) {
    && !Excluded(st, slot) && !Withdrawn(env, st, pull, |pull|, slot)
    && Supplied(env, st, pull, |pull|, slot)
  }

  /** The listed event is not pulled and has no times, it was decided to keep its entry, its slot is live when
      the pull is done, and no event listed before it in that slot has a recorded decision. */
  ghost predicate KeepFailsAt(env: Env, st: State, pull: seq<Incoming>, gone: seq<Event>, j: nat)
    requires j < |gone|
  {
    var ev := gone[j];
    && EvKey(ev) !in Keys(pull) && !Timed(ev.facts) && Answer(st, ev, KeepEntry)
    && LiveAfter(env, st, pull, SlotOf(ev.facts))
    && !Settles(st, Keys(pull), gone[..j], SlotOf(ev.facts))
  }

  lemma LiveAfterPull(env: Env, st: State, pull: seq<Incoming>, s1: Sync, slot: Slot)
    requires env.Valid() && WellFormed(st) && DistinctKeys(pull) && PullAll(env, st.events, pull, Start(env, st)) == Done(s1)
    ensures Live(s1.st, slot) <==> LiveAfter(env, st, pull, slot)
  {
    hide WellFormed, DistinctKeys, PullAll, PullInv, Withdrawn, Supplied;
    var mid := SlotsAfter(env, st, pull, |pull|, slot);
    assert pull[..|pull|] == pull;
  }

  lemma AnswersAtStart(env: Env, st: State, pull: seq<Incoming>, s1: Sync, ev: Event)
    requires env.Valid() && PullsEffect(st.events, pull, Start(env, st), s1) && EvKey(ev) !in Keys(pull)
    ensures forall action :: Answer(st, ev, action) <==> Answer(s1.st, ev, action)
  {
    assert KeyFrame(st, s1.st, EvKey(ev));
    hide PullsEffect, KeyFrame, Answer;
    SameAnswers(st, s1.st, ev);
  }

  lemma SettlesAtStart(env: Env, st: State, pull: seq<Incoming>, s1: Sync, gone: seq<Event>, slot: Slot)
    requires env.Valid() && PullsEffect(st.events, pull, Start(env, st), s1)
    ensures Settles(s1.st, Keys(pull), gone, slot) <==> Settles(st, Keys(pull), gone, slot)
  {
    hide PullsEffect, Answer, Keys;
    forall i | 0 <= i < |gone| ensures SettlesAt(s1.st, Keys(pull), gone[i], slot) <==> SettlesAt(st, Keys(pull), gone[i], slot) {
      if EvKey(gone[i]) !in Keys(pull) { AnswersAtStart(env, st, pull, s1, gone[i]); }
    }
    hide SettlesAt;
  }

  lemma FailsAtStart(env: Env, st: State, pull: seq<Incoming>, s1: Sync, gone: seq<Event>, j: nat)
    requires env.Valid() && WellFormed(st) && DistinctKeys(pull) && j < |gone|
    requires PullAll(env, st.events, pull, Start(env, st)) == Done(s1) && PullsEffect(st.events, pull, Start(env, st), s1)
    ensures FailsAt(s1.st, Keys(pull), gone, j) <==> KeepFailsAt(env, st, pull, gone, j)
  {
    hide WellFormed, DistinctKeys, PullAll, PullsEffect, Live, LiveAfter, Settles, Answer, Keys;
    var ev := gone[j];
    LiveAfterPull(env, st, pull, s1, SlotOf(ev.facts));
    SettlesAtStart(env, st, pull, s1, gone[..j], SlotOf(ev.facts));
    if EvKey(ev) !in Keys(pull) { AnswersAtStart(env, st, pull, s1, ev); }
  }

  /** With a time zone, a sync fails exactly when some event without times vanishes whose entry it was
      decided to keep, its slot has or is given a category and is not excluded, and no other recorded
      decision about that slot is replayed first. Events may share slots. */
  lemma SyncFailsIff(env: Env, st: State, pull: seq<Incoming>)
    requires env.Valid() && env.hasTz && WellFormed(st) && DistinctKeys(pull)
    ensures var gone := BaseEvents(env, st.events);
            SyncEvents(env, st, pull).Failed? <==> exists j :: 0 <= j < |gone| && KeepFailsAt(env, st, pull, gone, j)
  {
    hide PullInv, PullsEffect, VanishInv, WellFormed, PullAll, VanishAll, Distinct, BaseEvents, DistinctKeys, KeepFailsAt, FailsAt, Live, Settles;
    var s1 := PullLoopDone(env, st, pull);
    var gone := BaseEvents(env, st.events);
    BaseListed(env, st);
    StoredForVanish(env, st, pull, s1);
    VanishSlots(env, Keys(pull), gone, s1);
    forall j | 0 <= j < |gone| ensures FailsAt(s1.st, Keys(pull), gone, j) <==> KeepFailsAt(env, st, pull, gone, j) {
      FailsAtStart(env, st, pull, s1, gone, j);
    }
  }

  /** In particular a sync fails on nothing but the recorded keep of a vanished event without times. */
  lemma SyncFailsOnlyOnKeep(env: Env, st: State, pull: seq<Incoming>)
    requires env.Valid() && env.hasTz && WellFormed(st) && DistinctKeys(pull)
    ensures SyncEvents(env, st, pull).Failed? ==>
              exists k :: k in st.events && k !in Keys(pull) && !Timed(st.events[k].facts) && Answer(st, st.events[k], KeepEntry)
  {
    hide WellFormed, DistinctKeys, SyncEvents, BaseEvents, LiveAfter, Settles, Answer, Keys;
    SyncFailsIff(env, st, pull);
    BaseListed(env, st);
    var gone := BaseEvents(env, st.events);
    if SyncEvents(env, st, pull).Failed? {
      var j :| 0 <= j < |gone| && KeepFailsAt(env, st, pull, gone, j);
      assert gone[j] in gone;
      assert EvKey(gone[j]) in st.events && st.events[EvKey(gone[j])] == gone[j];
    }
  }

  // ── which events are deleted ────────────────────────────────────────

  /** The vanish loop deletes an event exactly when its slot was bare and nothing of it is confirmed. */
  ghost predicate Decided(s: Sync, st': State, ev: Event) {
    EvKey(ev) in st'.events <==> !Bare(s.st, SlotOf(ev.facts)) || LinkedAs(s.rows, IdentityOf(ev.calendar, ev.facts), Confirmed)
  }

  lemma {:induction false} VanishDecides(env: Env, seen: set<EventKey>, gone: seq<Event>, s: Sync)
    requires env.Valid() && VanishInv(s) && Distinct(gone) && VanishAll(env, seen, gone, s).Done?
    requires forall ev :: ev in gone && EvKey(ev) !in seen ==> EvKey(ev) in s.st.events && s.st.events[EvKey(ev)].facts == ev.facts
    ensures var st' := VanishAll(env, seen, gone, s).value.st;
            && (forall slot :: Bare(st', slot) <==> Bare(s.st, slot))
            && (forall ev :: ev in gone && EvKey(ev) !in seen ==> Decided(s, st', ev))
  {
    hide VanishRun, VanishInv, VanishOne, Distinct, Bare, LinkedAs;
    if |gone| > 0 {
      var init, ev := gone[..|gone| - 1], gone[|gone| - 1];
      assert gone == init + [ev];
      InitDistinct(seen, init, ev);
      VanishDecides(env, seen, init, s);
      VanishAllStep(env, seen, init, s);
      var mid := VanishAll(env, seen, init, s).value;
      StillStored(seen, init, ev, s, mid);
      RunRows(seen, init, s, mid);
      LastDecided(env, seen, ev, mid);
      forall e | e in gone && EvKey(e) !in seen ensures Decided(s, VanishOne(env, seen, ev, mid).value.st, e) {
        if e != ev { EarlierKey(init, ev, e); }
      }
    }
  }

  lemma RunRows(seen: set<EventKey>, gone: seq<Event>, s: Sync, mid: Sync)
    requires VanishRun(seen, gone, s, mid)
    ensures mid.rows == s.rows
  {
  }

  lemma EarlierKey(init: seq<Event>, ev: Event, e: Event)
    requires Distinct(init + [ev]) && e in init + [ev] && e != ev
    ensures e in init && EvKey(e) != EvKey(ev)
  {
    var gone := init + [ev];
    var i :| 0 <= i < |gone| && gone[i] == e;
    assert gone[|init|] == ev && i < |init| && init[i] == e;
  }

  lemma LastDecided(env: Env, seen: set<EventKey>, ev: Event, s: Sync)
    requires env.Valid() && VanishInv(s) && VanishOne(env, seen, ev, s).Done?
    requires EvKey(ev) !in seen ==> EvKey(ev) in s.st.events && s.st.events[EvKey(ev)].facts == ev.facts
    ensures var st' := VanishOne(env, seen, ev, s).value.st;
            && (forall slot :: Bare(st', slot) <==> Bare(s.st, slot))
            && (forall k :: k != EvKey(ev) ==> (k in st'.events <==> k in s.st.events))
            && (EvKey(ev) !in seen ==> Decided(s, st', ev))
            && (EvKey(ev) in seen ==> st'.events == s.st.events)
  {
    hide VanishInv, VanishOne, LinkedAs, Answered;
    var st' := VanishOne(env, seen, ev, s).value.st;
    VanishSlot(env, seen, ev, s);
    VanishOneStep(env, seen, ev, s);
    DeletedOne(seen, ev, s, VanishOne(env, seen, ev, s).value);
    if st'.overlays == s.st.overlays { SameLive(s.st, st'); }
    hide Excluded, Categorized;
  }

  lemma DeletedOne(seen: set<EventKey>, ev: Event, s: Sync, s': Sync)
    requires VanishEffect(seen, ev, s, s') && (EvKey(ev) !in seen ==> EvKey(ev) in s.st.events)
    ensures if Stays(seen, ev, s) then s'.st.events == s.st.events else s'.st.events == s.st.events - {EvKey(ev)}
  {
    hide Stays, WellFormed, Local, ReviewsKept, ExclusionKept, CategoriesKept, OpenItems;
  }

  /** What keeps a stored event that the pull does not name. */
  ghost predicate Retains(env: Env, st: State, pull: seq<Incoming>, ev: Event) {
    || Excluded(st, SlotOf(ev.facts)) || Supplied(env, st, pull, |pull|, SlotOf(ev.facts))
    || HasLinked(st, IdentityOf(ev.calendar, ev.facts), Confirmed)
  }

  lemma BareAfterPull(env: Env, st: State, pull: seq<Incoming>, s1: Sync, slot: Slot)
    requires env.Valid() && WellFormed(st) && DistinctKeys(pull) && PullAll(env, st.events, pull, Start(env, st)) == Done(s1)
    ensures Bare(s1.st, slot) <==> !Excluded(st, slot) && !Supplied(env, st, pull, |pull|, slot)
  {
    hide WellFormed, DistinctKeys, PullAll, PullInv, Withdrawn, Supplied, Excluded, Categorized;
    var mid := SlotsAfter(env, st, pull, |pull|, slot);
    assert pull[..|pull|] == pull;
    if Withdrawn(env, st, pull, |pull|, slot) { WithdrawnSupplied(env, st, pull, slot); }
  }

  lemma WithdrawnSupplied(env: Env, st: State, pull: seq<Incoming>, slot: Slot)
    requires Withdrawn(env, st, pull, |pull|, slot)
    ensures Supplied(env, st, pull, |pull|, slot)
  {
    hide Supplies, Redropped, Categorized;
    var i :| 0 <= i < |pull| && Redropped(st, pull[i], slot) && Supplied(env, st, pull, i, slot);
  }

  lemma ConfirmedFromStart(env: Env, st: State, pull: seq<Incoming>, s1: Sync, ev: Event)
    requires env.Valid() && RowsGrown(env.listRows(st.entries), s1.rows, Keys(pull))
    ensures LinkedAs(s1.rows, IdentityOf(ev.calendar, ev.facts), Confirmed)
       <==> HasLinked(st, IdentityOf(ev.calendar, ev.facts), Confirmed)
  {
    var id := IdentityOf(ev.calendar, ev.facts);
    hide RowsGrown, LinkedAs, HasLinked;
    GrownConfirmed(env.listRows(st.entries), s1.rows, Keys(pull), id);
    ConfirmedIdsExist(env.listRows(st.entries), id);
    ConfirmedIdsExist(s1.rows, id);
    ListingExact(env, st, id);
    ExactLinked(env.listRows(st.entries), st, id, Confirmed);
  }

  /** A stored event survives a sync exactly when it was pulled, its slot is excluded, has a category or is
      given one by a new event of the pull, or a confirmed entry is linked to it. Events may share slots. */
  lemma DeletedIff(env: Env, st: State, pull: seq<Incoming>)
    requires env.Valid() && WellFormed(st) && DistinctKeys(pull) && SyncEvents(env, st, pull).Done?
    ensures var st' := SyncEvents(env, st, pull).value.0;
            forall k :: k in st.events ==> (k in st'.events <==> k in Keys(pull) || Retains(env, st, pull, st.events[k]))
  {
    hide WellFormed, DistinctKeys, SyncEvents, PullInv, PullsEffect, VanishRun, VanishInv, Proposals, PullAll, VanishAll, BaseEvents, Distinct, RowsGrown, Bare, Excluded, Supplied, HasLinked, LinkedAs;
    var s1, s2 := SyncRuns(env, st, pull);
    StartInv(env, st);
    PullsReport(env, pull, Start(env, st));
    BaseListed(env, st);
    StoredForVanish(env, st, pull, s1);
    var gone := BaseEvents(env, st.events);
    VanishDecides(env, Keys(pull), gone, s1);
    forall k | k in st.events ensures k in s2.st.events <==> k in Keys(pull) || Retains(env, st, pull, st.events[k]) {
      if k in Keys(pull) {
        PulledNotLost(env, st, pull, s1, s2, k);
      } else {
        StoredKey(st, k);
        BareAfterPull(env, st, pull, s1, SlotOf(st.events[k].facts));
        ConfirmedFromStart(env, st, pull, s1, st.events[k]);
        assert st.events[k] in gone && Decided(s1, s2.st, st.events[k]);
      }
    }
  }

  /** A sync raises the number of open items by exactly `flagged` if and only if every open item belongs to
      an event that was pulled or is retained. Events may share slots. */
  lemma FlaggedCountsIff(env: Env, st: State, pull: seq<Incoming>)
    requires env.Valid() && WellFormed(st) && DistinctKeys(pull) && SyncEvents(env, st, pull).Done?
    ensures forall rk :: rk in OpenItems(st) ==> IdentityKey(rk.identity) in st.events
    ensures var (st', res) := SyncEvents(env, st, pull).value;
            |OpenItems(st')| == |OpenItems(st)| + res.flagged <==>
              forall rk :: rk in OpenItems(st) ==>
                IdentityKey(rk.identity) in Keys(pull) || Retains(env, st, pull, st.events[IdentityKey(rk.identity)])
  {
    hide SyncEvents, WellFormed, DistinctKeys, Retains, OpenItems, LostItems;
    OpenStored(st);
    SyncConservesOpenItems(env, st, pull);
    DeletedIff(env, st, pull);
    NoneLostOf(env, st, SyncEvents(env, st, pull).value.0, pull);
  }

  lemma NoneLostOf(env: Env, st: State, st': State, pull: seq<Incoming>)
    requires forall rk :: rk in OpenItems(st) ==> IdentityKey(rk.identity) in st.events
    requires forall k :: k in st.events ==> (k in st'.events <==> k in Keys(pull) || Retains(env, st, pull, st.events[k]))
    ensures LostItems(st, st') == {} <==>
              forall rk :: rk in OpenItems(st) ==>
                IdentityKey(rk.identity) in Keys(pull) || Retains(env, st, pull, st.events[IdentityKey(rk.identity)])
  {
    hide OpenItems, Retains;
    if rk :| rk in OpenItems(st) && IdentityKey(rk.identity) !in st'.events { assert rk in LostItems(st, st'); }
  }
}
