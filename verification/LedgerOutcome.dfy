/** When a sync fails, and what it does to the number of open review items: both stated over the ledger
    and the pull alone. */
module LedgerOutcome {
  import opened Wrappers
  import opened Intervals
  import opened LedgerTypes
  import opened LedgerSpec
  import opened LedgerSteps
  import opened LedgerDrafts
  import opened LedgerSync
  import opened LedgerRuns
  import opened LedgerTheorems
  import opened LedgerIdempotence
  import opened LedgerFlags

  // ── the pull loop does not fail ─────────────────────────────────────

  lemma {:induction false} RefreshSucceeds(env: Env, st: State, inc: Incoming, rows: seq<Row>)
    requires Timed(inc.facts) && env.hasTz
    requires forall r :: r in rows && Linked(r.te, IncIdentity(inc)) && r.te.attestation == Draft
               ==> r.id in st.entries && st.entries[r.id].attestation == Draft
    ensures RefreshAll(env, st, inc, rows).Done?
    ensures var st' := RefreshAll(env, st, inc, rows).value;
            st'.entries.Keys == st.entries.Keys && forall x :: x in st.entries ==> st'.entries[x].attestation == st.entries[x].attestation
  {
    if |rows| > 0 {
      var init, last := rows[..|rows| - 1], rows[|rows| - 1];
      assert rows == init + [last];
      RefreshSucceeds(env, st, inc, init);
      assert last in rows;
    }
  }

  lemma MaterializeSucceeds(env: Env, st: State, inc: Incoming, rows: seq<Row>, material: bool)
    requires env.hasTz && WellFormed(st) && Tracks(rows, st.entries)
    requires Excluded(st, SlotOf(inc.facts)) || ExactFor(rows, st, IncIdentity(inc))
    ensures Materialize(env, st, inc, rows, material).Done?
  {
    hide WellFormed, Tracks, LinkedAs, AllDismissed, OpenTentative, EntriesStep, StaleDrafts;
    if Timed(inc.facts) {
      if Excluded(st, SlotOf(inc.facts)) {
        DismissStep(st, rows, IncIdentity(inc));
      } else {
        RefreshSucceeds(env, st, inc, rows);
      }
    }
  }

  lemma PreparedSucceeds(env: Env, base: map<EventKey, Event>, inc: Incoming, s: Sync, st1: State, flagged: nat, material: bool)
    requires env.hasTz && PullInv(base, s) && Prepared(base, inc, s, st1, flagged) && ExactFor(s.rows, s.st, IncIdentity(inc))
    ensures Materialize(env, st1, inc, s.rows, material).Done?
  {
    PreparedTracks(base, inc, s, st1, flagged);
    assert WellFormed(st1);
    hide PullInv, Local, ReviewsKept, CategoriesKept, ExclusionKept, NoOldDecisions, OpenItems, WellFormed, Tracks, Materialize;
    MaterializeSucceeds(env, st1, inc, s.rows, material);
  }

  lemma PullOneSucceeds(env: Env, base: map<EventKey, Event>, inc: Incoming, s: Sync)
    requires env.Valid() && env.hasTz && PullInv(base, s) && ExactFor(s.rows, s.st, IncIdentity(inc))
    ensures PullOne(env, base, inc, s).Done?
  {
    hide PullInv, Prepared, Materialize, HandleNew, HandleChanged, UpsertEvent, ExactFor;
    var k := IncKey(inc);
    if k !in base {
      PrepareNew(env, base, inc, s);
      var (st1, flagged) := HandleNew(env, UpsertEvent(s.st, inc), inc, s.rows).value;
      PreparedSucceeds(env, base, inc, s, st1, flagged, false);
    } else if base[k].facts == inc.facts {
      PrepareSame(base, inc, s);
      PreparedSucceeds(env, base, inc, s, s.st, 0, false);
    } else {
      PrepareChanged(env, base, inc, s);
      var (st1, flagged) := HandleChanged(env, UpsertEvent(s.st, inc), base[k], inc, s.rows).value;
      PreparedSucceeds(env, base, inc, s, st1, flagged, TitleMaterial(env, base[k], inc) || IncludeDropped(base[k], inc));
    }
  }

  lemma {:induction false} PullAllSucceeds(env: Env, pull: seq<Incoming>, s: Sync)
    requires env.Valid() && env.hasTz && PullInv(s.st.events, s) && DistinctKeys(pull)
    requires forall i :: 0 <= i < |pull| ==> ExactFor(s.rows, s.st, IncIdentity(pull[i]))
    ensures PullAll(env, s.st.events, pull, s).Done?
  {
    hide PullInv, PullsEffect, PullEffect, Proposals, PullOne, ExactFor, RowsGrown, Evolved, Grew, DistinctKeys;
    if |pull| > 0 {
      var base := s.st.events;
      var init, inc := pull[..|pull| - 1], pull[|pull| - 1];
      PrefixKeys(init, inc, pull);
      PullAllSucceeds(env, init, s);
      PullsReport(env, init, s);
      PullAllStep(env, base, init, s);
      var mid := PullAll(env, base, init, s).value;
      LastKey(init, inc);
      KeyOutside(init, inc, s, mid);
      ExactAfterGrowth(s.rows, mid.rows, s.st, mid.st, Keys(init), IncIdentity(inc));
      PullOneSucceeds(env, base, inc, mid);
    }
  }

  lemma LastKey(init: seq<Incoming>, inc: Incoming)
    requires DistinctKeys(init + [inc])
    ensures IncKey(inc) !in Keys(init)
  {
    var pull := init + [inc];
    forall x | x in init ensures IncKey(x) != IncKey(inc) {
      var i :| 0 <= i < |init| && init[i] == x;
      assert pull[i] == x && pull[|init|] == inc;
    }
  }

  lemma KeyOutside(init: seq<Incoming>, inc: Incoming, s: Sync, mid: Sync)
    requires IncKey(inc) !in Keys(init) && PullsEffect(s.st.events, init, s, mid)
    ensures KeyFrame(s.st, mid.st, IncKey(inc))
  {
    hide KeyFrame, SlotFrame, Evolved, ReviewsKept, ExclusionKept, Fated, OpenItems;
  }

  // ── the vanish loop fails on one recorded decision only ─────────────

  /** A recorded decision to keep the entry of a deleted event that has no times to keep. */
  ghost predicate Unkeepable(st: State, ev: Event) {
    var rk := ReviewKey(DeletedCategorized, IdentityOf(ev.calendar, ev.facts), WasDeleted);
    && !Excluded(st, SlotOf(ev.facts)) && Categorized(st, SlotOf(ev.facts)) && !Timed(ev.facts)
    && rk in st.reviews && st.reviews[rk].status != Open && st.reviews[rk].action == KeepEntry
  }

  lemma UnkeepableFrame(st: State, st': State, ev: Event)
    requires KeyFrame(st, st', EvKey(ev)) && SlotFrame(st, st', SlotOf(ev.facts))
    ensures Unkeepable(st, ev) <==> Unkeepable(st', ev)
  {
    assert SameAt(st.reviews, st'.reviews, ReviewKey(DeletedCategorized, IdentityOf(ev.calendar, ev.facts), WasDeleted));
  }

  lemma KeepFails(env: Env, st: State, k: EventKey)
    requires env.Valid() && env.hasTz && WellFormed(st) && k in st.events
    ensures ApplyDeleted(env, st, k, KeepEntry).Failed? <==> !Timed(st.events[k].facts)
  {
    hide WellFormed, DismissDraftsOf, Local;
    var st1 := DismissDraftsStep(env, st, k);
  }

  lemma CategorizedFails(env: Env, ev: Event, st: State)
    requires env.Valid() && env.hasTz && WellFormed(st) && EvKey(ev) in st.events && st.events[EvKey(ev)].facts == ev.facts
    requires !Excluded(st, SlotOf(ev.facts)) && Categorized(st, SlotOf(ev.facts))
    ensures OnVanishedCategorized(env, st, ev).Failed? <==> Unkeepable(st, ev)
  {
    hide WellFormed, ApplyDeleted, EnqueueOrReplay, Excluded, Categorized, Retired;
    var (k, rk) := (EvKey(ev), ReviewKey(DeletedCategorized, IdentityOf(ev.calendar, ev.facts), WasDeleted));
    EnqueueReplays(st, rk, k, Titled(ev.facts.title));
    var (st1, _, _) := EnqueueOrReplay(st, rk, k, Titled(ev.facts.title));
    DropEntryStep(env, st1, k);
    KeepFails(env, st1, k);
  }

  lemma VanishOneFails(env: Env, seen: set<EventKey>, ev: Event, s: Sync)
    requires env.Valid() && env.hasTz && VanishInv(s)
    requires EvKey(ev) !in seen ==> EvKey(ev) in s.st.events && s.st.events[EvKey(ev)].facts == ev.facts
    ensures VanishOne(env, seen, ev, s).Failed? <==> EvKey(ev) !in seen && Unkeepable(s.st, ev)
  {
    hide WellFormed, Tracks, DeletedPayload, ConfirmedIds, Excluded, Categorized, OnVanishedCategorized, EnqueueDrift, DeleteEvent;
    if EvKey(ev) !in seen && !Excluded(s.st, SlotOf(ev.facts)) && Categorized(s.st, SlotOf(ev.facts)) {
      CategorizedFails(env, ev, s.st);
    }
  }

  ghost predicate AnyUnkeepable(st: State, seen: set<EventKey>, gone: seq<Event>) {
    exists i :: 0 <= i < |gone| && EvKey(gone[i]) !in seen && Unkeepable(st, gone[i])
  }

  lemma {:induction false} VanishAllFails(env: Env, seen: set<EventKey>, gone: seq<Event>, s: Sync)
    requires env.Valid() && env.hasTz && VanishInv(s) && Distinct(gone) && SlotsApart(seen, gone)
    requires forall ev :: ev in gone && EvKey(ev) !in seen ==> EvKey(ev) in s.st.events && s.st.events[EvKey(ev)].facts == ev.facts
    ensures VanishAll(env, seen, gone, s).Failed? <==> AnyUnkeepable(s.st, seen, gone)
  {
    hide VanishRun, VanishInv, Unkeepable, VanishOne, Distinct, SlotsApart;
    if |gone| > 0 {
      var init, ev := gone[..|gone| - 1], gone[|gone| - 1];
      assert gone == init + [ev];
      InitApart(seen, init, ev);
      VanishAllFails(env, seen, init, s);
      AnyPush(s.st, seen, init, ev);
      if VanishAll(env, seen, init, s).Done? {
        VanishAllStep(env, seen, init, s);
        LastVanishFails(env, seen, init, ev, s, VanishAll(env, seen, init, s).value);
      }
    }
  }

  lemma InitApart(seen: set<EventKey>, init: seq<Event>, ev: Event)
    requires Distinct(init + [ev]) && SlotsApart(seen, init + [ev])
    ensures Distinct(init) && SlotsApart(seen, init)
  {
    var gone := init + [ev];
    assert forall i :: 0 <= i < |init| ==> init[i] == gone[i];
  }

  lemma AnyPush(st: State, seen: set<EventKey>, init: seq<Event>, ev: Event)
    ensures AnyUnkeepable(st, seen, init + [ev]) <==> AnyUnkeepable(st, seen, init) || (EvKey(ev) !in seen && Unkeepable(st, ev))
  {
    hide Unkeepable;
    var gone := init + [ev];
    if AnyUnkeepable(st, seen, init) {
      var i :| 0 <= i < |init| && EvKey(init[i]) !in seen && Unkeepable(st, init[i]);
      assert gone[i] == init[i];
    }
    assert gone[|init|] == ev;
  }

  lemma LastVanishFails(env: Env, seen: set<EventKey>, init: seq<Event>, ev: Event, s: Sync, mid: Sync)
    requires env.Valid() && env.hasTz && VanishRun(seen, init, s, mid) && Distinct(init + [ev]) && SlotsApart(seen, init + [ev])
    requires EvKey(ev) !in seen ==> EvKey(ev) in s.st.events && s.st.events[EvKey(ev)].facts == ev.facts
    ensures VanishOne(env, seen, ev, mid).Failed? <==> EvKey(ev) !in seen && Unkeepable(s.st, ev)
  {
    assert VanishInv(mid);
    if EvKey(ev) !in seen {
      NotGoneYet(seen, init, ev);
      assert SlotFrame(s.st, mid.st, SlotOf(ev.facts)) && KeyFrame(s.st, mid.st, EvKey(ev));
      VanishReady(seen, init, ev, s, mid);
      hide VanishRun, VanishInv, KeyFrame, SlotFrame, VanishOne, Unkeepable;
      UnkeepableFrame(s.st, mid.st, ev);
      VanishOneFails(env, seen, ev, mid);
    }
  }

  lemma NotGoneYet(seen: set<EventKey>, init: seq<Event>, ev: Event)
    requires Distinct(init + [ev]) && SlotsApart(seen, init + [ev]) && EvKey(ev) !in seen
    ensures EvKey(ev) !in GoneKeys(seen, init) && SlotOf(ev.facts) !in GoneSlots(seen, init)
  {
    var gone := init + [ev];
    forall x | x in init && EvKey(x) !in seen ensures EvKey(x) != EvKey(ev) && SlotOf(x.facts) != SlotOf(ev.facts) {
      var i :| 0 <= i < |init| && init[i] == x;
      assert gone[i] == x && gone[|init|] == ev;
    }
  }

  // ── the whole sync ──────────────────────────────────────────────────

  lemma PullLoopDone(env: Env, st: State, pull: seq<Incoming>) returns (s1: Sync)
    requires env.Valid() && env.hasTz && WellFormed(st) && DistinctKeys(pull)
    ensures PullAll(env, st.events, pull, Start(env, st)) == Done(s1)
    ensures PullInv(st.events, s1) && PullsEffect(st.events, pull, Start(env, st), s1)
  {
    hide PullInv, PullsEffect, Proposals, ExactFor, WellFormed, DistinctKeys, PullAll;
    var s0 := Start(env, st);
    StartInv(env, st);
    forall i | 0 <= i < |pull| ensures ExactFor(s0.rows, s0.st, IncIdentity(pull[i])) {
      ListingExact(env, st, IncIdentity(pull[i]));
    }
    PullAllSucceeds(env, pull, s0);
    PullAllStep(env, st.events, pull, s0);
    s1 := PullAll(env, st.events, pull, s0).value;
  }

  lemma UnkeepableFromStart(env: Env, st: State, pull: seq<Incoming>, s1: Sync, ev: Event)
    requires env.Valid() && PullsEffect(st.events, pull, Start(env, st), s1)
    requires EvKey(ev) !in Keys(pull) && SlotOf(ev.facts) !in Slots(pull)
    ensures Unkeepable(st, ev) <==> Unkeepable(s1.st, ev)
  {
    assert KeyFrame(st, s1.st, EvKey(ev)) && SlotFrame(st, s1.st, SlotOf(ev.facts));
    hide PullsEffect, KeyFrame, SlotFrame, Unkeepable;
    UnkeepableFrame(st, s1.st, ev);
  }

  /** With a time zone, a sync fails exactly when the pull leaves out a stored event without times that
      still has its category and whose entry it was decided to keep. */
  lemma SyncFailsExactly(env: Env, st: State, pull: seq<Incoming>)
    requires env.Valid() && env.hasTz && WellFormed(st) && Unshared(st, pull)
    ensures SyncEvents(env, st, pull).Failed? <==> exists k :: k in st.events && k !in Keys(pull) && Unkeepable(st, st.events[k])
  {
    hide PullInv, PullsEffect, VanishInv, WellFormed, Unkeepable, PullAll, VanishAll, SlotsApart, Distinct, BaseEvents, DistinctKeys;
    KeysApart(st, pull);
    var s1 := PullLoopDone(env, st, pull);
    var gone := BaseEvents(env, st.events);
    BaseListed(env, st);
    BaseApart(env, st, pull);
    StoredForVanish(env, st, pull, s1);
    VanishAllFails(env, Keys(pull), gone, s1);
    if AnyUnkeepable(s1.st, Keys(pull), gone) {
      var i :| 0 <= i < |gone| && EvKey(gone[i]) !in Keys(pull) && Unkeepable(s1.st, gone[i]);
      assert gone[i] in gone;
      UnkeepableFromStart(env, st, pull, s1, gone[i]);
      assert Unkeepable(st, st.events[EvKey(gone[i])]);
    }
    if k :| k in st.events && k !in Keys(pull) && Unkeepable(st, st.events[k]) {
      StoredKey(st, k);
      var i :| 0 <= i < |gone| && gone[i] == st.events[k];
      UnkeepableFromStart(env, st, pull, s1, gone[i]);
      assert AnyUnkeepable(s1.st, Keys(pull), gone);
    }
  }

  lemma KeysApart(st: State, pull: seq<Incoming>)
    requires Unshared(st, pull)
    ensures DistinctKeys(pull)
    ensures forall k :: k in st.events && k !in Keys(pull) ==> SlotOf(st.events[k].facts) !in Slots(pull)
  {
  }

  lemma StoredKey(st: State, k: EventKey)
    requires WellFormed(st) && k in st.events
    ensures EvKey(st.events[k]) == k
  {
  }

  // ── the number of open items ────────────────────────────────────────

  /** A sync raises the number of open items by exactly `flagged` if and only if every open item belongs
      to an event that was pulled or that has a reason to be kept: an exclusion, a category or a confirmed
      entry. Otherwise items go with their deleted events. */
  lemma FlaggedCountsExactly(env: Env, st: State, pull: seq<Incoming>)
    requires env.Valid() && WellFormed(st) && Unshared(st, pull) && SyncEvents(env, st, pull).Done?
    ensures forall rk :: rk in OpenItems(st) ==> IdentityKey(rk.identity) in st.events
    ensures var (st', res) := SyncEvents(env, st, pull).value;
            |OpenItems(st')| == |OpenItems(st)| + res.flagged <==>
              forall rk :: rk in OpenItems(st) ==>
                IdentityKey(rk.identity) in Keys(pull) || Protected(st, st.events[IdentityKey(rk.identity)])
  {
    hide SyncEvents, WellFormed, Unshared, Protected, OpenItems, LostItems;
    OpenStored(st);
    SyncConservesOpenItems(env, st, pull);
    DeletedExactly(env, st, pull);
    NoneLost(st, SyncEvents(env, st, pull).value.0, pull);
  }

  lemma OpenStored(st: State)
    requires WellFormed(st)
    ensures forall rk :: rk in OpenItems(st) ==> IdentityKey(rk.identity) in st.events
  {
  }

  lemma NoneLost(st: State, st': State, pull: seq<Incoming>)
    requires forall rk :: rk in OpenItems(st) ==> IdentityKey(rk.identity) in st.events
    requires forall k :: k in st.events ==> (k in st'.events <==> k in Keys(pull) || Protected(st, st.events[k]))
    ensures LostItems(st, st') == {} <==>
              forall rk :: rk in OpenItems(st) ==>
                IdentityKey(rk.identity) in Keys(pull) || Protected(st, st.events[IdentityKey(rk.identity)])
  {
    hide OpenItems, Protected;
    if rk :| rk in OpenItems(st) && IdentityKey(rk.identity) !in st'.events { assert rk in LostItems(st, st'); }
  }

  // ── recorded decisions and new events ───────────────────────────────

  lemma {:induction false} PrefixDone(env: Env, base: map<EventKey, Event>, pull: seq<Incoming>, s: Sync, i: nat)
    requires i <= |pull| && PullAll(env, base, pull, s).Done?
    ensures PullAll(env, base, pull[..i], s).Done?
    decreases |pull|
  {
    if i < |pull| {
      assert pull[..|pull| - 1][..i] == pull[..i];
      PrefixDone(env, base, pull[..|pull| - 1], s, i);
    } else {
      assert pull[..i] == pull;
    }
  }

  /** No recorded decision is replayed for an event that is new to the ledger: where a sync handles it,
      only review items change and automatic categories are not skipped. */
  lemma NewEventsReplayNothing(env: Env, st: State, pull: seq<Incoming>, i: nat)
    requires env.Valid() && WellFormed(st) && SyncEvents(env, st, pull).Done?
    requires i < |pull| && IncKey(pull[i]) !in st.events
    ensures PullAll(env, st.events, pull[..i], Start(env, st)).Done?
    ensures var mid := PullAll(env, st.events, pull[..i], Start(env, st)).value;
            var st0 := UpsertEvent(mid.st, pull[i]);
            var o := OnNewEvent(env, st0, pull[i], mid.rows);
            o.Done? && !o.value.2 && o.value.0 == st0.(reviews := o.value.0.reviews)
  {
    hide PullInv, PullsEffect, Proposals, WellFormed, PullAll, OnNewEvent, UpsertEvent;
    var s0 := Start(env, st);
    StartInv(env, st);
    PrefixDone(env, st.events, pull, s0, i);
    PullAllStep(env, st.events, pull[..i], s0);
    var mid := PullAll(env, st.events, pull[..i], s0).value;
    StoredFirst(st.events, pull[i], mid);
    hide AllOpenAt, ReviewsKept, ReviewsElsewhere, OpenItems;
    OnNewEventNeverReplays(env, UpsertEvent(mid.st, pull[i]), pull[i], mid.rows);
  }
}
