/** What a sync makes of a changed event that already has a category. */
module LedgerConflicts {
  import opened Wrappers
  import opened Intervals
  import opened LedgerTypes
  import opened LedgerSpec
  import opened LedgerSteps
  import opened LedgerDrafts
  import opened LedgerSync
  import opened LedgerRuns
  import opened LedgerTheorems
  import opened LedgerIdempotence
  import opened LedgerFlags

  // ── one event within the pull loop ──────────────────────────────────

  /** The step that handles event `i` of a pull: nothing before it and nothing after it concerns that
      event or its overlay slot. */
  lemma {:induction false} PulledAt(env: Env, pull: seq<Incoming>, s: Sync, i: nat) returns (mid: Sync, next: Sync)
    requires env.Valid() && PullInv(s.st.events, s) && DistinctPull(pull) && i < |pull|
    requires PullAll(env, s.st.events, pull, s).Done?
    ensures PullAll(env, s.st.events, pull[..i], s) == Done(mid) && PullOne(env, s.st.events, pull[i], mid) == Done(next)
    ensures PullInv(s.st.events, mid) && PullInv(s.st.events, next) && RowsGrown(s.rows, mid.rows, Keys(pull[..i]))
    ensures var (k, slot, last) := (IncKey(pull[i]), SlotOf(pull[i].facts), PullAll(env, s.st.events, pull, s).value.st);
            && KeyFrame(s.st, mid.st, k) && SlotFrame(s.st, mid.st, slot)
            && KeyFrame(next.st, last, k) && SlotFrame(next.st, last, slot)
  {
    hide PullInv, PullsEffect, PullEffect, Proposals, PullOne, Evolved, Grew, DistinctPull, RowsGrown, KeyFrame, SlotFrame;
    var base := s.st.events;
    var init, inc := pull[..|pull| - 1], pull[|pull| - 1];
    PrefixDistinct(init, inc, pull);
    PullAllStep(env, base, init, s);
    var before := PullAll(env, base, init, s).value;
    PullOneStep(env, base, inc, before);
    var last := PullOne(env, base, inc, before).value;
    if i == |pull| - 1 {
      mid, next := before, last;
      EarlierFrames(init, inc, s, mid);
      GrownBy(env, init, s);
      SelfFrames(last.st, IncKey(inc), SlotOf(inc.facts));
    } else {
      mid, next := PulledAt(env, init, s, i);
      assert init[..i] == pull[..i] && init[i] == pull[i];
      LaterFrames(env, base, init, inc, i, next.st, before, last);
    }
  }

  lemma SelfFrames(st: State, k: EventKey, slot: Slot)
    ensures KeyFrame(st, st, k) && SlotFrame(st, st, slot)
  {
  }

  lemma GrownBy(env: Env, pull: seq<Incoming>, s: Sync)
    requires env.Valid() && PullInv(s.st.events, s) && DistinctPull(pull) && PullAll(env, s.st.events, pull, s).Done?
    ensures RowsGrown(s.rows, PullAll(env, s.st.events, pull, s).value.rows, Keys(pull))
  {
    hide PullInv, PullAll, RowsGrown;
    PullsReport(env, pull, s);
  }

  lemma EarlierFrames(init: seq<Incoming>, inc: Incoming, s: Sync, mid: Sync)
    requires DistinctPull(init + [inc]) && PullsEffect(s.st.events, init, s, mid)
    ensures KeyFrame(s.st, mid.st, IncKey(inc)) && SlotFrame(s.st, mid.st, SlotOf(inc.facts))
  {
    hide KeyFrame, SlotFrame, Evolved, ReviewsKept, ExclusionKept, Fated, OpenItems;
    var pull := init + [inc];
    forall x | x in init ensures IncKey(x) != IncKey(inc) && SlotOf(x.facts) != SlotOf(inc.facts) {
      var i :| 0 <= i < |init| && init[i] == x;
      assert pull[i] == x && pull[|init|] == inc;
    }
  }

  lemma LaterFrames(env: Env, base: map<EventKey, Event>, init: seq<Incoming>, inc: Incoming, i: nat, st: State, mid: Sync, s': Sync)
    requires DistinctPull(init + [inc]) && i < |init| && PullEffect(env, base, inc, mid, s')
    requires KeyFrame(st, mid.st, IncKey(init[i])) && SlotFrame(st, mid.st, SlotOf(init[i].facts))
    ensures KeyFrame(st, s'.st, IncKey(init[i])) && SlotFrame(st, s'.st, SlotOf(init[i].facts))
  {
    var pull := init + [inc];
    assert pull[i] == init[i] && pull[|init|] == inc;
    LocalFrames(mid.st, s'.st, IncKey(inc), SlotOf(inc.facts));
    hide PullEffect, KeyFrame, Evolved, DistinctPull;
    KeyFrameTrans(st, mid.st, s'.st, IncKey(init[i]));
  }

  // ── a changed event that already has a category ─────────────────────

  predicate Holds(st: State, rk: ReviewKey) {
    rk in st.reviews
  }

  function RetitledKey(env: Env, ex: Event, inc: Incoming): ReviewKey {
    ReviewKey(TitleChanged, IncIdentity(inc), Titles(env.normalize(ex.facts.title), env.normalize(inc.facts.title)))
  }

  function DeclinedKey(inc: Incoming): ReviewKey {
    ReviewKey(DeletedCategorized, IncIdentity(inc), WasDeclined)
  }

  /** The item of `rk` is in the later table exactly when it was in the earlier one, unchanged, or was
      opened under the condition. */
  ghost predicate OpenedWhen(st: State, st': State, rk: ReviewKey, cond: bool, payload: Payload, k: EventKey) {
    && (rk in st'.reviews <==> rk in st.reviews || cond)
    && (rk in st.reviews ==> rk in st'.reviews && st'.reviews[rk] == st.reviews[rk])
    && (rk !in st.reviews && rk in st'.reviews ==> st'.reviews[rk] == Review(k, payload, Open, NoAction))
  }

  lemma EnqueueOpensOnly(st: State, rk: ReviewKey, k: EventKey, payload: Payload, other: ReviewKey)
    ensures var st' := EnqueueOrReplay(st, rk, k, payload).0;
            OpenedWhen(st, st', rk, true, payload, k) && (other != rk ==> SameAt(st.reviews, st'.reviews, other))
  {
  }

  lemma RetitledItem(env: Env, st: State, ex: Event, inc: Incoming)
    ensures var st' := OnRetitled(env, st, ex, inc).0;
            && OpenedWhen(st, st', RetitledKey(env, ex, inc), TitleMaterial(env, ex, inc), Renamed(ex.facts.title, inc.facts.title), IncKey(inc))
            && SameAt(st.reviews, st'.reviews, DeclinedKey(inc))
  {
    hide EnqueueOrReplay;
    EnqueueOpensOnly(st, RetitledKey(env, ex, inc), IncKey(inc), Renamed(ex.facts.title, inc.facts.title), DeclinedKey(inc));
  }

  /** A recorded drop of a declined event, which a later decline replays. */
  predicate RecordedDrop(st: State, inc: Incoming) {
    var rk := DeclinedKey(inc);
    rk in st.reviews && st.reviews[rk].status != Open && st.reviews[rk].action == DropEntry
  }

  lemma DeclinedItem(env: Env, st: State, ex: Event, inc: Incoming)
    requires env.Valid() && WellFormed(st) && IncKey(inc) in st.events && st.events[IncKey(inc)].facts == inc.facts
    ensures OnDeclined(env, st, inc).Done?
    ensures var st' := OnDeclined(env, st, inc).value.0;
            && OpenedWhen(st, st', DeclinedKey(inc), inc.status == Declined, Titled(inc.facts.title), IncKey(inc))
            && SameAt(st.reviews, st'.reviews, RetitledKey(env, ex, inc))
            && (inc.status == Declined && RecordedDrop(st, inc) ==> Excluded(st', SlotOf(inc.facts)))
  {
    hide WellFormed, ApplyDeleted, EnqueueOrReplay, ChangedEffect, OpenItems, Retired, OpenedWhen, Excluded;
    var (rk, k) := (DeclinedKey(inc), IncKey(inc));
    EnqueueOpensOnly(st, rk, k, Titled(inc.facts.title), RetitledKey(env, ex, inc));
    EnqueueReplays(st, rk, k, Titled(inc.facts.title));
    var (st1, action, _) := EnqueueOrReplay(st, rk, k, Titled(inc.facts.title));
    if inc.status == Declined && action == DropEntry {
      DropEntryStep(env, st1, k);
      RetiredItems(st1, ApplyDeleted(env, st1, k, DropEntry).value, k);
      RetiredExcluded(st1, ApplyDeleted(env, st1, k, DropEntry).value, k);
      SameOpened(st, st1, ApplyDeleted(env, st1, k, DropEntry).value, rk, Titled(inc.facts.title), k);
    }
    if inc.status == Declined {
      DeclineSucceeds(env, st, inc);
    } else {
      NotOpened(st, rk, Titled(inc.facts.title), k);
    }
  }

  lemma SameOpened(st: State, a: State, b: State, rk: ReviewKey, payload: Payload, k: EventKey)
    requires OpenedWhen(st, a, rk, true, payload, k) && a.reviews == b.reviews
    ensures OpenedWhen(st, b, rk, true, payload, k)
  {
  }

  lemma NotOpened(st: State, rk: ReviewKey, payload: Payload, k: EventKey)
    ensures OpenedWhen(st, st, rk, false, payload, k)
  {
  }

  lemma DeclineSucceeds(env: Env, st: State, inc: Incoming)
    requires env.Valid() && WellFormed(st) && IncKey(inc) in st.events && st.events[IncKey(inc)].facts == inc.facts
    ensures OnDeclined(env, st, inc).Done?
  {
    hide WellFormed, ChangedEffect, OpenItems, OnDeclined;
    OnDeclinedStep(env, st, inc);
  }

  lemma RetiredExcluded(st: State, st': State, k: EventKey)
    requires k in st.events && Retired(st, st', k)
    ensures Excluded(st', SlotOf(st.events[k].facts))
  {
  }

  /** The event has live drafts, no confirmed row, and was not declined: then the drafts take over the new
      title and no title item is opened. */
  ghost predicate Absorbed(st: State, inc: Incoming) {
    HasLinked(st, IncIdentity(inc), Draft) && !HasLinked(st, IncIdentity(inc), Confirmed) && inc.status != Declined
  }

  ghost predicate ChangedItems(env: Env, st: State, st': State, ex: Event, inc: Incoming) {
    var (k, slot) := (IncKey(inc), SlotOf(inc.facts));
    && OpenedWhen(st, st', RetitledKey(env, ex, inc), Categorized(st, slot) && TitleMaterial(env, ex, inc) && !Absorbed(st, inc),
                  Renamed(ex.facts.title, inc.facts.title), k)
    && OpenedWhen(st, st', DeclinedKey(inc), Categorized(st, slot) && inc.status == Declined, Titled(inc.facts.title), k)
    && (Categorized(st, slot) && inc.status == Declined && RecordedDrop(st, inc) ==> Excluded(st', slot))
  }

  lemma DriftLeaves(env: Env, st: State, ex: Event, inc: Incoming, rows: seq<Row>)
    requires WellFormed(st) && IncKey(inc) in st.events
    ensures var st' := OnConfirmedSourceDrift(st, inc, rows).0;
            && WellFormed(st') && st'.events == st.events && st'.overlays == st.overlays && st'.entries == st.entries
            && SameAt(st.reviews, st'.reviews, RetitledKey(env, ex, inc)) && SameAt(st.reviews, st'.reviews, DeclinedKey(inc))
  {
    hide WellFormed, ChangedEffect, DriftedIds, OpenItems;
    DriftEffect(st, inc, rows);
  }

  lemma ChangedOnce(env: Env, st: State, ex: Event, inc: Incoming, rows: seq<Row>)
    requires env.Valid() && WellFormed(st) && ExactFor(rows, st, IncIdentity(inc))
    requires IncKey(inc) in st.events && st.events[IncKey(inc)].facts == inc.facts
    ensures HandleChanged(env, st, ex, inc, rows).Done? && ChangedItems(env, st, HandleChanged(env, st, ex, inc, rows).value.0, ex, inc)
  {
    hide WellFormed, ExactFor, LinkedAs, HasLinked, OnConfirmedSourceDrift, OnRetitled, OnDeclined, RetitledKey, TitleMaterial, Excluded, RecordedDrop, Categorized;
    ExactLinked(rows, st, IncIdentity(inc), Draft);
    ExactLinked(rows, st, IncIdentity(inc), Confirmed);
    DriftLeaves(env, st, ex, inc, rows);
    var (st1, _) := OnConfirmedSourceDrift(st, inc, rows);
    SameCategory(st, st1, SlotOf(inc.facts));
    RetitledItem(env, st1, ex, inc);
    OnRetitledKeeps(env, st1, ex, inc);
    var (st2, _) := OnRetitled(env, st1, ex, inc);
    DeclinedItem(env, st2, ex, inc);
    SameDrop(st, st1, inc);
    SameDrop(st1, st2, inc);
    NoneDeclined(env, st1, inc);
  }

  lemma SameCategory(a: State, b: State, slot: Slot)
    requires a.overlays == b.overlays
    ensures Categorized(a, slot) <==> Categorized(b, slot)
  {
  }

  lemma SameDrop(a: State, b: State, inc: Incoming)
    requires SameAt(a.reviews, b.reviews, DeclinedKey(inc))
    ensures RecordedDrop(a, inc) <==> RecordedDrop(b, inc)
  {
  }

  lemma NoneDeclined(env: Env, st: State, inc: Incoming)
    ensures inc.status != Declined ==> OnDeclined(env, st, inc) == Done((st, 0))
  {
  }

  lemma ChangedByPull(env: Env, base: map<EventKey, Event>, inc: Incoming, s: Sync)
    requires env.Valid() && PullInv(base, s) && ExactFor(s.rows, s.st, IncIdentity(inc))
    requires IncKey(inc) in base && base[IncKey(inc)].facts != inc.facts && PullOne(env, base, inc, s).Done?
    ensures ChangedItems(env, s.st, PullOne(env, base, inc, s).value.st, base[IncKey(inc)], inc)
  {
    hide PullInv, Prepared, HandleChanged, UpsertEvent, AllOpenAt, WellFormed, Materialize, ChangedItems, ExactFor;
    var (st0, ex) := (UpsertEvent(s.st, inc), base[IncKey(inc)]);
    StoredFirst(base, inc, s);
    UpsertLeaves(s.st, inc, s.rows);
    PrepareChanged(env, base, inc, s);
    ChangedOnce(env, st0, ex, inc, s.rows);
    var (st1, flagged) := HandleChanged(env, st0, ex, inc, s.rows).value;
    var material := TitleMaterial(env, ex, inc) || IncludeDropped(ex, inc);
    MaterializedItems(env, base, inc, s, st1, flagged, material);
    MaterializedOverlays(env, base, inc, s, st1, flagged, material);
    ChangedItemsSame(env, s.st, st0, st1, PullOne(env, base, inc, s).value.st, ex, inc);
  }

  lemma UpsertLeaves(st: State, inc: Incoming, rows: seq<Row>)
    ensures var st0 := UpsertEvent(st, inc);
            && st0.reviews == st.reviews && st0.overlays == st.overlays && st0.entries == st.entries
            && (ExactFor(rows, st, IncIdentity(inc)) ==> ExactFor(rows, st0, IncIdentity(inc)))
  {
  }

  lemma MaterializedOverlays(env: Env, base: map<EventKey, Event>, inc: Incoming, s: Sync, st: State, flagged: nat, material: bool)
    requires PullInv(base, s) && Prepared(base, inc, s, st, flagged) && Materialize(env, st, inc, s.rows, material).Done?
    ensures Materialize(env, st, inc, s.rows, material).value.0.overlays == st.overlays
  {
    hide PullInv, Materialize, Tracks, EntriesStep, Proposed, WellFormed, Local, ReviewsKept, CategoriesKept, ExclusionKept, NoOldDecisions, OpenItems;
    PreparedTracks(base, inc, s, st, flagged);
    MaterializeStep(env, st, inc, s.rows, material);
  }

  /** Nothing else about the two states matters to what happened to the two items. */
  lemma ChangedItemsSame(env: Env, a: State, a': State, b: State, b': State, ex: Event, inc: Incoming)
    requires ChangedItems(env, a', b, ex, inc)
    requires a.reviews == a'.reviews && a.overlays == a'.overlays && a.entries == a'.entries
    requires b.reviews == b'.reviews && b.overlays == b'.overlays
    ensures ChangedItems(env, a, b', ex, inc)
  {
    SameCategory(a, a', SlotOf(inc.facts));
  }

  lemma ChangedItemsFrame(env: Env, a: State, a': State, b: State, b': State, ex: Event, inc: Incoming)
    requires ChangedItems(env, a', b, ex, inc)
    requires KeyFrame(a, a', IncKey(inc)) && SlotFrame(a, a', SlotOf(inc.facts))
    requires KeyFrame(b, b', IncKey(inc)) && (Excluded(b, SlotOf(inc.facts)) ==> Excluded(b', SlotOf(inc.facts)))
    ensures ChangedItems(env, a, b', ex, inc)
  {
    LinkedFrame(a, a', IncIdentity(inc));
    assert SameAt(a.reviews, a'.reviews, RetitledKey(env, ex, inc)) && SameAt(a.reviews, a'.reviews, DeclinedKey(inc));
    assert SameAt(b.reviews, b'.reviews, RetitledKey(env, ex, inc)) && SameAt(b.reviews, b'.reviews, DeclinedKey(inc));
    hide KeyFrame, HasLinked, UpToDate, RetitledKey, TitleMaterial;
  }

  // ── the whole sync ──────────────────────────────────────────────────

  lemma ChangedAtEnd(env: Env, st: State, pull: seq<Incoming>, inc: Incoming)
    requires env.Valid() && WellFormed(st) && DistinctPull(pull) && SyncEvents(env, st, pull).Done?
    requires inc in pull && IncKey(inc) in st.events && st.events[IncKey(inc)].facts != inc.facts
    ensures ChangedItems(env, st, SyncEvents(env, st, pull).value.0, st.events[IncKey(inc)], inc)
  {
    hide PullInv, PullsEffect, Proposals, VanishRun, SyncEvents, PullAll, WellFormed, RowsGrown, DistinctPull, ChangedItems, ExactFor, KeyFrame, SlotFrame, PullOne;
    var s0 := Start(env, st);
    var s1, s2 := SyncRuns(env, st, pull);
    StartInv(env, st);
    var i :| 0 <= i < |pull| && pull[i] == inc;
    var mid, next := PulledAt(env, pull, s0, i);
    ListingExact(env, st, IncIdentity(inc));
    ApartFromPrefix(pull, i);
    ExactAfterGrowth(s0.rows, mid.rows, st, mid.st, Keys(pull[..i]), IncIdentity(inc));
    ChangedByPull(env, st.events, inc, mid);
    UntilTheEnd(env, st, pull, next.st, s1, s2, inc);
    ChangedItemsFrame(env, st, mid.st, next.st, s2.st, st.events[IncKey(inc)], inc);
  }

  lemma ApartFromPrefix(pull: seq<Incoming>, i: nat)
    requires DistinctPull(pull) && i < |pull|
    ensures IncKey(pull[i]) !in Keys(pull[..i])
  {
  }

  /** From the step that handles an event to the end of the sync: its items and linked rows stay, and so
      does an exclusion of its slot. */
  lemma UntilTheEnd(env: Env, st: State, pull: seq<Incoming>, next: State, s1: Sync, s2: Sync, inc: Incoming)
    requires env.Valid() && inc in pull && VanishRun(Keys(pull), BaseEvents(env, st.events), s1, s2)
    requires KeyFrame(next, s1.st, IncKey(inc)) && SlotFrame(next, s1.st, SlotOf(inc.facts))
    ensures KeyFrame(next, s2.st, IncKey(inc))
    ensures Excluded(next, SlotOf(inc.facts)) ==> Excluded(s2.st, SlotOf(inc.facts))
  {
    assert IncKey(inc) in Keys(pull);
    assert KeyFrame(s1.st, s2.st, IncKey(inc)) && ExclusionKept(s1.st, s2.st);
    hide VanishRun, KeyFrame;
    KeyFrameTrans(next, s1.st, s2.st, IncKey(inc));
  }

  /** The title item of a changed event is there after a sync exactly when it was before, or the event has
      a category, its normalized title changed, and no live draft alone absorbs the new title. A declined
      event is never absorbed. */
  lemma RetitledIsFlagged(env: Env, st: State, pull: seq<Incoming>, inc: Incoming)
    requires env.Valid() && WellFormed(st) && DistinctPull(pull) && SyncEvents(env, st, pull).Done?
    requires inc in pull && IncKey(inc) in st.events && st.events[IncKey(inc)].facts != inc.facts
    ensures var (st', ex, id) := (SyncEvents(env, st, pull).value.0, st.events[IncKey(inc)], IncIdentity(inc));
            var rk := ReviewKey(TitleChanged, id, Titles(env.normalize(ex.facts.title), env.normalize(inc.facts.title)));
            && (rk in st'.reviews <==>
                  rk in st.reviews
                  || (Categorized(st, SlotOf(inc.facts)) && env.normalize(ex.facts.title) != env.normalize(inc.facts.title)
                      && !(HasLinked(st, id, Draft) && !HasLinked(st, id, Confirmed) && inc.status != Declined)))
            && (rk in st.reviews ==> st'.reviews[rk] == st.reviews[rk])
            && (rk !in st.reviews && rk in st'.reviews ==>
                  st'.reviews[rk] == Review(IncKey(inc), Renamed(ex.facts.title, inc.facts.title), Open, NoAction))
  {
    hide SyncEvents, DistinctPull, WellFormed, HasLinked, Categorized;
    ChangedAtEnd(env, st, pull, inc);
  }

  /** The item of a declined event is there after a sync exactly when it was before, or the event changed
      while it had a category; and where it was decided to drop the entry, the sync drops it again. */
  lemma DeclinedIsFlagged(env: Env, st: State, pull: seq<Incoming>, inc: Incoming)
    requires env.Valid() && WellFormed(st) && DistinctPull(pull) && SyncEvents(env, st, pull).Done?
    requires inc in pull && IncKey(inc) in st.events && st.events[IncKey(inc)].facts != inc.facts
    ensures var (st', rk) := (SyncEvents(env, st, pull).value.0, ReviewKey(DeletedCategorized, IncIdentity(inc), WasDeclined));
            var due := Categorized(st, SlotOf(inc.facts)) && inc.status == Declined;
            && (rk in st'.reviews <==> rk in st.reviews || due)
            && (rk in st.reviews ==> st'.reviews[rk] == st.reviews[rk])
            && (rk !in st.reviews && rk in st'.reviews ==> st'.reviews[rk] == Review(IncKey(inc), Titled(inc.facts.title), Open, NoAction))
            && (due && rk in st.reviews && st.reviews[rk].status != Open && st.reviews[rk].action == DropEntry ==>
                  Excluded(st', SlotOf(inc.facts)))
  {
    hide SyncEvents, DistinctPull, WellFormed, Categorized, Excluded;
    ChangedAtEnd(env, st, pull, inc);
  }
}
