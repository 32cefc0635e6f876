/** Which events a sync deletes, and that repeating a sync changes nothing. Both need overlay slots
    not to be shared: overlays are keyed without the calendar, events with it. */
module LedgerIdempotence {
  import opened Wrappers
  import opened Intervals
  import opened LedgerTypes
  import opened LedgerSpec
  import opened LedgerSteps
  import opened LedgerDrafts
  import opened LedgerSync
  import opened LedgerRuns
  import opened LedgerTheorems

  ghost predicate DistinctPull(pull: seq<Incoming>) {
    forall i, j :: 0 <= i < j < |pull| ==>
      IncKey(pull[i]) != IncKey(pull[j]) && SlotOf(pull[i].facts) != SlotOf(pull[j].facts)
  }

  /** No two events, stored or pulled, share an overlay slot, and no event is reported twice. */
  ghost predicate Unshared(st: State, pull: seq<Incoming>) {
    && DistinctPull(pull)
    && (forall k :: k in st.events && k !in Keys(pull) ==> SlotOf(st.events[k].facts) !in Slots(pull))
    && (forall k, j :: k in st.events && j in st.events && k != j && k !in Keys(pull) && j !in Keys(pull)
          ==> SlotOf(st.events[k].facts) != SlotOf(st.events[j].facts))
  }

  lemma Apart(st: State, pull: seq<Incoming>)
    requires Unshared(st, pull)
    ensures DistinctPull(pull)
  {
  }

  // ── pulled events end settled ───────────────────────────────────────

  lemma LinkedFrame(st: State, st': State, id: Identity)
    requires KeyFrame(st, st', IdentityKey(id))
    ensures forall a :: HasLinked(st, id, a) <==> HasLinked(st', id, a)
    ensures forall a, rev :: UpToDate(st, id, a, rev) <==> UpToDate(st', id, a, rev)
  {
    forall x | x in st.entries && Linked(st.entries[x], id) ensures x in st'.entries && st'.entries[x] == st.entries[x] { }
    forall x | x in st'.entries && Linked(st'.entries[x], id) ensures x in st.entries && st'.entries[x] == st.entries[x] { }
  }

  lemma SettledFrame(st: State, st': State, inc: Incoming)
    requires WellFormed(st) && Settled(st, inc)
    requires KeyFrame(st, st', IncKey(inc)) && SlotFrame(st, st', SlotOf(inc.facts))
    ensures Settled(st', inc)
  {
    LinkedFrame(st, st', IncIdentity(inc));
    if OpenTentative(st, IncKey(inc)) {
      var rk :| rk in st.reviews && rk.kind == TentativeEvent && st.reviews[rk].status == Open && st.reviews[rk].event == IncKey(inc);
      assert SameAt(st.reviews, st'.reviews, rk);
    }
  }

  /** The listing grew only by drafts of the given events. */
  ghost predicate RowsGrown(rows: seq<Row>, rows': seq<Row>, keys: set<EventKey>) {
    && |rows| <= |rows'| && rows'[..|rows|] == rows
    && (forall i :: |rows| <= i < |rows'| ==>
          rows'[i].te.attestation == Draft && rows'[i].te.source.Calendar? && IdentityKey(rows'[i].te.source.id) in keys)
  }

  lemma RowsGrownStep(env: Env, base: map<EventKey, Event>, rows: seq<Row>, inc: Incoming, s: Sync, s': Sync, keys: set<EventKey>)
    requires RowsGrown(rows, s.rows, keys) && Grew(env, base, inc, s, s')
    ensures RowsGrown(rows, s'.rows, keys + {IncKey(inc)})
  {
    hide LinkedAs, AllDismissed, Material;
  }

  lemma ExactAfterGrowth(rows: seq<Row>, rows': seq<Row>, st: State, st': State, keys: set<EventKey>, id: Identity)
    requires RowsGrown(rows, rows', keys) && IdentityKey(id) !in keys
    requires ExactFor(rows, st, id) && KeyFrame(st, st', IdentityKey(id))
    ensures ExactFor(rows', st', id)
  {
    forall r | r in rows' && Linked(r.te, id) ensures r.id in st'.entries && st'.entries[r.id] == r.te {
      var i :| 0 <= i < |rows'| && rows'[i] == r;
      assert i < |rows|;
      assert rows[i] == r;
      assert r in rows;
    }
    forall x | x in st'.entries && Linked(st'.entries[x], id) ensures Row(x, st'.entries[x]) in rows' {
      var i :| 0 <= i < |rows| && rows[i] == Row(x, st'.entries[x]);
      assert rows'[..|rows|][i] == rows'[i];
    }
  }

  lemma PullOneSettles(env: Env, base: map<EventKey, Event>, inc: Incoming, s: Sync)
    requires env.Valid() && PullInv(base, s) && ExactFor(s.rows, s.st, IncIdentity(inc))
    requires PullOne(env, base, inc, s).Done?
    ensures Settled(PullOne(env, base, inc, s).value.st, inc)
  {
    hide PullInv, Prepared, Materialize, HandleNew, HandleChanged, UpsertEvent, ExactFor, Settled;
    var k := IncKey(inc);
    if k !in base {
      PrepareNew(env, base, inc, s);
      var (st1, flagged) := HandleNew(env, UpsertEvent(s.st, inc), inc, s.rows).value;
      PreparedSettles(env, base, inc, s, st1, flagged, false);
    } else if base[k].facts == inc.facts {
      PrepareSame(base, inc, s);
      PreparedSettles(env, base, inc, s, s.st, 0, false);
    } else {
      PrepareChanged(env, base, inc, s);
      var (st1, flagged) := HandleChanged(env, UpsertEvent(s.st, inc), base[k], inc, s.rows).value;
      PreparedSettles(env, base, inc, s, st1, flagged, TitleMaterial(env, base[k], inc) || IncludeDropped(base[k], inc));
    }
  }

  lemma PreparedSettles(env: Env, base: map<EventKey, Event>, inc: Incoming, s: Sync, st1: State, flagged: nat, material: bool)
    requires PullInv(base, s) && Prepared(base, inc, s, st1, flagged) && ExactFor(s.rows, s.st, IncIdentity(inc))
    requires Materialize(env, st1, inc, s.rows, material).Done?
    ensures Settled(Materialize(env, st1, inc, s.rows, material).value.0, inc)
  {
    PreparedTracks(base, inc, s, st1, flagged);
    assert WellFormed(st1);
    hide PullInv, Local, ReviewsKept, CategoriesKept, ExclusionKept, NoOldDecisions, OpenItems, WellFormed, Tracks, Materialize, Settled;
    MaterializeSettles(env, st1, inc, s.rows, material);
  }

  /** After the pull loop, every pulled event is stored as pulled and settled. */
  ghost predicate PulledDone(pull: seq<Incoming>, st: State) {
    forall i :: 0 <= i < |pull| ==> Settled(st, pull[i]) && StoredAs(st, pull[i])
  }

  ghost predicate StoredAs(st: State, inc: Incoming) {
    IncKey(inc) in st.events && st.events[IncKey(inc)].facts == inc.facts
  }

  lemma {:induction false} PullAllSettles(env: Env, pull: seq<Incoming>, s: Sync)
    requires env.Valid() && PullInv(s.st.events, s) && DistinctPull(pull)
    requires forall i :: 0 <= i < |pull| ==> ExactFor(s.rows, s.st, IncIdentity(pull[i]))
    requires PullAll(env, s.st.events, pull, s).Done?
    ensures var s' := PullAll(env, s.st.events, pull, s).value;
            PulledDone(pull, s'.st) && RowsGrown(s.rows, s'.rows, Keys(pull))
  {
    hide PullInv, PullsEffect, PullEffect, Proposals, PullOne, ExactFor, Settled, RowsGrown, StoredAs, Evolved, Grew, PulledDone, DistinctPull;
    if |pull| == 0 {
      NothingPulled(s, pull);
    } else {
      var base := s.st.events;
      var init, inc := pull[..|pull| - 1], pull[|pull| - 1];
      PrefixDistinct(init, inc, pull);
      PullAllSettles(env, init, s);
      var mid := PullAll(env, base, init, s).value;
      PullAllStep(env, base, init, s);
      PullOneStep(env, base, inc, mid);
      var s' := PullOne(env, base, inc, mid).value;
      LastSettles(env, init, inc, s, mid, s');
      PullEvolved(env, base, inc, mid, s');
      RowsGrownStep(env, base, s.rows, inc, mid, s', Keys(init));
      EarlierStay(env, base, init, inc, mid, s');
    }
  }

  lemma NothingPulled(s: Sync, pull: seq<Incoming>)
    requires pull == []
    ensures PulledDone(pull, s.st) && RowsGrown(s.rows, s.rows, Keys(pull))
  {
  }

  lemma PrefixDistinct(init: seq<Incoming>, inc: Incoming, pull: seq<Incoming>)
    requires |pull| > 0 && init == pull[..|pull| - 1] && inc == pull[|pull| - 1] && DistinctPull(pull)
    ensures pull == init + [inc] && DistinctPull(init) && IncKey(inc) !in Keys(init)
    ensures Keys(pull) == Keys(init) + {IncKey(inc)}
  {
    assert pull == init + [inc];
    forall x | x in init ensures IncKey(x) != IncKey(inc) {
      var i :| 0 <= i < |init| && init[i] == x;
      assert pull[i] == x;
    }
  }

  lemma EarlierStay(env: Env, base: map<EventKey, Event>, init: seq<Incoming>, inc: Incoming, s: Sync, s': Sync)
    requires DistinctPull(init + [inc]) && PulledDone(init, s.st)
    requires PullInv(base, s) && PullEffect(env, base, inc, s, s')
    requires Settled(s'.st, inc) && StoredAs(s'.st, inc)
    ensures PulledDone(init + [inc], s'.st)
  {
    hide PullInv, PullEffect, Settled, StoredAs;
    var pull := init + [inc];
    forall i | 0 <= i < |pull| ensures Settled(s'.st, pull[i]) && StoredAs(s'.st, pull[i]) {
      if i < |init| {
        assert init[i] == pull[i] && inc == pull[|init|];
        EarlierStays(env, base, inc, init[i], s, s');
      }
    }
  }

  lemma LastSettles(env: Env, init: seq<Incoming>, inc: Incoming, s: Sync, mid: Sync, s': Sync)
    requires env.Valid() && IncKey(inc) !in Keys(init) && ExactFor(s.rows, s.st, IncIdentity(inc))
    requires PullsEffect(s.st.events, init, s, mid) && PullInv(s.st.events, mid) && RowsGrown(s.rows, mid.rows, Keys(init))
    requires PullOne(env, s.st.events, inc, mid) == Done(s') && PullEffect(env, s.st.events, inc, mid, s')
    ensures Settled(s'.st, inc) && StoredAs(s'.st, inc)
  {
    assert KeyFrame(s.st, mid.st, IncKey(inc));
    hide PullsEffect, PullInv, PullOne, Settled, RowsGrown, ExactFor;
    ExactAfterGrowth(s.rows, mid.rows, s.st, mid.st, Keys(init), IncIdentity(inc));
    PullOneSettles(env, s.st.events, inc, mid);
    StoredByPull(env, s.st.events, inc, mid, s');
  }

  lemma StoredByPull(env: Env, base: map<EventKey, Event>, inc: Incoming, s: Sync, s': Sync)
    requires PullEffect(env, base, inc, s, s') && SameAt(base, s.st.events, IncKey(inc))
    ensures StoredAs(s'.st, inc)
  {
  }

  lemma EarlierStays(env: Env, base: map<EventKey, Event>, inc: Incoming, earlier: Incoming, s: Sync, s': Sync)
    requires PullInv(base, s) && PullEffect(env, base, inc, s, s')
    requires IncKey(earlier) != IncKey(inc) && SlotOf(earlier.facts) != SlotOf(inc.facts)
    requires Settled(s.st, earlier) && StoredAs(s.st, earlier)
    ensures Settled(s'.st, earlier) && StoredAs(s'.st, earlier)
  {
    LocalFrames(s.st, s'.st, IncKey(inc), SlotOf(inc.facts));
    assert KeyFrame(s.st, s'.st, IncKey(earlier)) && SlotFrame(s.st, s'.st, SlotOf(earlier.facts));
    assert WellFormed(s.st);
    hide PullInv, PullEffect, Settled;
    SettledFrame(s.st, s'.st, earlier);
  }

  // ── vanished events: deleted, or settled ────────────────────────────

  /** Nothing is left for the vanish loop to do for this stored event. */
  ghost predicate VanishSettled(st: State, ev: Event, rows: seq<Row>) {
    var (slot, id) := (SlotOf(ev.facts), IdentityOf(ev.calendar, ev.facts));
    var rk := ReviewKey(DeletedCategorized, id, WasDeleted);
    || Excluded(st, slot)
    || (Categorized(st, slot) && rk in st.reviews
        && (st.reviews[rk].status == Open || (st.reviews[rk].action != DropEntry && st.reviews[rk].action != KeepEntry)))
    || (!Categorized(st, slot) && LinkedAs(rows, id, Confirmed) && DriftItem(st, id, DeletedPayload(rows, ev)))
  }

  lemma VanishSettledFrame(st: State, st': State, ev: Event, rows: seq<Row>)
    requires VanishSettled(st, ev, rows)
    requires KeyFrame(st, st', EvKey(ev)) && SlotFrame(st, st', SlotOf(ev.facts))
    ensures VanishSettled(st', ev, rows)
  {
    hide LinkedAs, DeletedPayload;
    var id := IdentityOf(ev.calendar, ev.facts);
    assert SameAt(st.reviews, st'.reviews, ReviewKey(DeletedCategorized, id, WasDeleted));
    assert SameAt(st.reviews, st'.reviews, ReviewKey(SourceDrift, id, Drifted));
  }

  lemma CategorizedSettles(env: Env, st: State, ev: Event, rows: seq<Row>)
    requires env.Valid() && WellFormed(st) && Categorized(st, SlotOf(ev.facts))
    requires EvKey(ev) in st.events && st.events[EvKey(ev)].facts == ev.facts
    requires OnVanishedCategorized(env, st, ev).Done?
    ensures VanishSettled(OnVanishedCategorized(env, st, ev).value.0, ev, rows)
  {
    var (k, id) := (EvKey(ev), IdentityOf(ev.calendar, ev.facts));
    var rk := ReviewKey(DeletedCategorized, id, WasDeleted);
    hide LinkedAs, DriftItem, DeletedPayload, ReviewsElsewhere, ReviewsKept;
    EnqueueStep(st, rk, k, Titled(ev.facts.title));
    var (st1, action, n) := EnqueueOrReplay(st, rk, k, Titled(ev.facts.title));
    assert WellFormed(st1);
    hide WellFormed, ApplyDeleted, ItemsOpened;
    if action == DropEntry || action == KeepEntry {
      assert Apply(env, st1, DeletedCategorized, k, NoPayload, action).Done?;
      if action == DropEntry { DropEntryStep(env, st1, k); } else { KeepEntryStep(env, st1, k); }
      assert Excluded(ApplyDeleted(env, st1, k, action).value, SlotOf(ev.facts));
    }
  }

  /** One round of the vanish loop deletes the event or settles it. */
  lemma VanishOneSettles(env: Env, seen: set<EventKey>, ev: Event, s: Sync)
    requires env.Valid() && VanishInv(s) && EvKey(ev) !in seen
    requires EvKey(ev) in s.st.events && s.st.events[EvKey(ev)].facts == ev.facts
    requires VanishOne(env, seen, ev, s).Done?
    ensures var s' := VanishOne(env, seen, ev, s).value;
            if Stays(seen, ev, s) then EvKey(ev) in s'.st.events && VanishSettled(s'.st, ev, s.rows)
            else EvKey(ev) !in s'.st.events
  {
    VanishOneStep(env, seen, ev, s);
    var s' := VanishOne(env, seen, ev, s).value;
    assert VanishEffect(seen, ev, s, s');
    assert Stays(seen, ev, s) ==> s'.st.events == s.st.events;
    assert WellFormed(s.st);
    hide WellFormed, Tracks, Retained, VanishEffect, VanishSettled, LinkedAs;
    ConfirmedIdsExist(s.rows, IdentityOf(ev.calendar, ev.facts));
    if !Excluded(s.st, SlotOf(ev.facts)) && Categorized(s.st, SlotOf(ev.facts)) {
      CategorizedSettles(env, s.st, ev, s.rows);
      CategorizedOutcome(env, seen, ev, s);
    } else if Stays(seen, ev, s) {
      OtherSettles(env, seen, ev, s);
    }
  }

  lemma CategorizedOutcome(env: Env, seen: set<EventKey>, ev: Event, s: Sync)
    requires EvKey(ev) !in seen && !Excluded(s.st, SlotOf(ev.facts)) && Categorized(s.st, SlotOf(ev.facts))
    requires VanishOne(env, seen, ev, s).Done?
    ensures OnVanishedCategorized(env, s.st, ev).Done?
    ensures VanishOne(env, seen, ev, s).value.st == OnVanishedCategorized(env, s.st, ev).value.0
  {
    hide OnVanishedCategorized;
  }

  lemma OtherSettles(env: Env, seen: set<EventKey>, ev: Event, s: Sync)
    requires WellFormed(s.st) && EvKey(ev) !in seen && EvKey(ev) in s.st.events
    requires Excluded(s.st, SlotOf(ev.facts)) || !Categorized(s.st, SlotOf(ev.facts))
    requires Stays(seen, ev, s)
    ensures VanishOne(env, seen, ev, s).Done? && VanishSettled(VanishOne(env, seen, ev, s).value.st, ev, s.rows)
  {
    hide WellFormed, LinkedAs, DriftItem, DeletedPayload, VanishEffect;
    if !Excluded(s.st, SlotOf(ev.facts)) {
      VanishConfirmedCase(env, seen, ev, s);
      ConfirmedIdsExist(s.rows, IdentityOf(ev.calendar, ev.facts));
    }
  }

  ghost predicate SlotsApart(seen: set<EventKey>, gone: seq<Event>) {
    forall i, j :: 0 <= i < j < |gone| && EvKey(gone[i]) !in seen && EvKey(gone[j]) !in seen
      ==> SlotOf(gone[i].facts) != SlotOf(gone[j].facts)
  }

  ghost predicate VanishedDone(seen: set<EventKey>, gone: seq<Event>, s: Sync, s': Sync) {
    forall i :: 0 <= i < |gone| && EvKey(gone[i]) !in seen ==> VanishedOne(seen, gone[i], s, s')
  }

  ghost predicate VanishedOne(seen: set<EventKey>, ev: Event, s: Sync, s': Sync) {
    if Stays(seen, ev, s) then EvKey(ev) in s'.st.events && VanishSettled(s'.st, ev, s.rows)
    else EvKey(ev) !in s'.st.events
  }

  lemma VanishedOneFrame(seen: set<EventKey>, ev: Event, s: Sync, mid: Sync, s': Sync)
    requires VanishedOne(seen, ev, s, mid)
    requires KeyFrame(mid.st, s'.st, EvKey(ev)) && SlotFrame(mid.st, s'.st, SlotOf(ev.facts))
    ensures VanishedOne(seen, ev, s, s')
  {
    assert SameAt(mid.st.events, s'.st.events, EvKey(ev));
    hide Stays, VanishSettled, KeyFrame;
    if Stays(seen, ev, s) { VanishSettledFrame(mid.st, s'.st, ev, s.rows); }
  }

  lemma StaysFrame(seen: set<EventKey>, ev: Event, s: Sync, mid: Sync)
    requires SlotFrame(s.st, mid.st, SlotOf(ev.facts)) && mid.rows == s.rows
    ensures Stays(seen, ev, s) <==> Stays(seen, ev, mid)
  {
  }

  lemma {:induction false} VanishAllSettles(env: Env, seen: set<EventKey>, gone: seq<Event>, s: Sync)
    requires env.Valid() && VanishInv(s) && Distinct(gone) && SlotsApart(seen, gone)
    requires forall ev :: ev in gone && EvKey(ev) !in seen ==> EvKey(ev) in s.st.events && s.st.events[EvKey(ev)].facts == ev.facts
    requires VanishAll(env, seen, gone, s).Done?
    ensures VanishedDone(seen, gone, s, VanishAll(env, seen, gone, s).value)
  {
    hide VanishRun, VanishStep, VanishEffect, VanishedOne, VanishInv;
    if |gone| > 0 {
      var init, ev := gone[..|gone| - 1], gone[|gone| - 1];
      assert gone == init + [ev];
      VanishAllSettles(env, seen, init, s);
      VanishAllStep(env, seen, init, s);
      var mid := VanishAll(env, seen, init, s).value;
      var s' := VanishOne(env, seen, ev, mid).value;
      if EvKey(ev) !in seen {
        LastVanishes(env, seen, init, ev, s, mid);
      }
      forall i | 0 <= i < |gone| && EvKey(gone[i]) !in seen ensures VanishedOne(seen, gone[i], s, s') {
        if i < |init| {
          assert init[i] == gone[i];
          if EvKey(ev) !in seen { VanishedOneKept(env, seen, init, ev, gone[i], s, mid); }
        }
      }
    }
  }

  lemma VanishedOneKept(env: Env, seen: set<EventKey>, init: seq<Event>, ev: Event, earlier: Event, s: Sync, mid: Sync)
    requires env.Valid() && VanishRun(seen, init, s, mid) && EvKey(ev) !in seen && EvKey(ev) !in GoneKeys(seen, init)
    requires EvKey(ev) in s.st.events && s.st.events[EvKey(ev)].facts == ev.facts
    requires EvKey(earlier) != EvKey(ev) && SlotOf(earlier.facts) != SlotOf(ev.facts)
    requires VanishOne(env, seen, ev, mid).Done? && VanishedOne(seen, earlier, s, mid)
    ensures VanishedOne(seen, earlier, s, VanishOne(env, seen, ev, mid).value)
  {
    VanishReady(seen, init, ev, s, mid);
    hide VanishRun, VanishedOne, VanishInv, VanishOne;
    VanishOneStep(env, seen, ev, mid);
    var s' := VanishOne(env, seen, ev, mid).value;
    VanishStepOf(seen, ev, mid, s');
    LocalFrames(mid.st, s'.st, EvKey(ev), SlotOf(ev.facts));
    hide VanishStep, VanishEffect, KeyFrame, SlotFrame, Evolved;
    VanishedOneFrame(seen, earlier, s, mid, s');
  }

  lemma LastVanishes(env: Env, seen: set<EventKey>, init: seq<Event>, ev: Event, s: Sync, mid: Sync)
    requires env.Valid() && VanishRun(seen, init, s, mid) && Distinct(init + [ev]) && SlotsApart(seen, init + [ev])
    requires EvKey(ev) !in seen && EvKey(ev) in s.st.events && s.st.events[EvKey(ev)].facts == ev.facts
    requires VanishOne(env, seen, ev, mid).Done?
    ensures VanishedOne(seen, ev, s, VanishOne(env, seen, ev, mid).value)
    ensures EvKey(ev) !in GoneKeys(seen, init)
  {
    var gone := init + [ev];
    forall x | x in init && EvKey(x) !in seen ensures EvKey(x) != EvKey(ev) && SlotOf(x.facts) != SlotOf(ev.facts) {
      var i :| 0 <= i < |init| && init[i] == x;
      assert gone[i] == x && gone[|init|] == ev;
    }
    assert SlotFrame(s.st, mid.st, SlotOf(ev.facts));
    VanishReady(seen, init, ev, s, mid);
    assert mid.rows == s.rows;
    hide VanishRun, VanishInv, VanishOne, Stays, VanishSettled, Distinct, SlotsApart, KeyFrame;
    VanishOneSettles(env, seen, ev, mid);
    StaysFrame(seen, ev, s, mid);
  }

  // ── which events are deleted ────────────────────────────────────────

  lemma {:induction false} GrownConfirmed(rows: seq<Row>, rows': seq<Row>, keys: set<EventKey>, id: Identity)
    requires RowsGrown(rows, rows', keys)
    ensures ConfirmedIds(rows', id) == ConfirmedIds(rows, id)
    decreases |rows'|
  {
    if |rows'| > |rows| {
      assert rows'[..|rows'| - 1][..|rows|] == rows;
      GrownConfirmed(rows, rows'[..|rows'| - 1], keys, id);
    } else {
      assert rows' == rows;
    }
  }

  /** The run of a sync over an unshared pull, with everything the two loops settle. */
  lemma SettledRuns(env: Env, st: State, pull: seq<Incoming>) returns (s1: Sync, s2: Sync)
    requires env.Valid() && WellFormed(st) && Unshared(st, pull)
    requires SyncEvents(env, st, pull).Done?
    ensures SyncEvents(env, st, pull) == Done((s2.st, s2.res))
    ensures PullAll(env, st.events, pull, Start(env, st)) == Done(s1)
    ensures WellFormed(s1.st) && PullsEffect(st.events, pull, Start(env, st), s1)
    ensures PulledDone(pull, s1.st) && RowsGrown(env.listRows(st.entries), s1.rows, Keys(pull))
    ensures VanishRun(Keys(pull), BaseEvents(env, st.events), s1, s2)
    ensures VanishedDone(Keys(pull), BaseEvents(env, st.events), s1, s2)
  {
    var s0 := Start(env, st);
    s1, s2 := SyncRuns(env, st, pull);
    StartInv(env, st);
    forall i | 0 <= i < |pull| ensures ExactFor(s0.rows, s0.st, IncIdentity(pull[i])) {
      ListingExact(env, st, IncIdentity(pull[i]));
    }
    hide PullInv, PullsEffect, VanishRun, Proposals, ExactFor, PulledDone, RowsGrown, VanishedDone, DistinctPull, SyncEvents;
    PullAllSettles(env, pull, s0);
    BaseListed(env, st);
    StoredForVanish(env, st, pull, s1);
    BaseApart(env, st, pull);
    VanishAllSettles(env, Keys(pull), BaseEvents(env, st.events), s1);
    assert WellFormed(s1.st) by { assert VanishInv(s1); }
  }

  lemma BaseApart(env: Env, st: State, pull: seq<Incoming>)
    requires env.Valid() && WellFormed(st) && Unshared(st, pull)
    ensures SlotsApart(Keys(pull), BaseEvents(env, st.events))
  {
    BaseListed(env, st);
    var gone := BaseEvents(env, st.events);
    forall i, j | 0 <= i < j < |gone| && EvKey(gone[i]) !in Keys(pull) && EvKey(gone[j]) !in Keys(pull)
      ensures SlotOf(gone[i].facts) != SlotOf(gone[j].facts)
    {
      assert gone[i] in gone && gone[j] in gone;
    }
  }

  lemma StaysFromStart(env: Env, st: State, pull: seq<Incoming>, s1: Sync, ev: Event)
    requires env.Valid() && PullsEffect(st.events, pull, Start(env, st), s1)
    requires RowsGrown(env.listRows(st.entries), s1.rows, Keys(pull))
    requires EvKey(ev) !in Keys(pull) && SlotOf(ev.facts) !in Slots(pull)
    ensures Stays(Keys(pull), ev, s1) <==>
            Excluded(st, SlotOf(ev.facts)) || Categorized(st, SlotOf(ev.facts))
            || HasLinked(st, IdentityOf(ev.calendar, ev.facts), Confirmed)
  {
    var id := IdentityOf(ev.calendar, ev.facts);
    assert SlotFrame(st, s1.st, SlotOf(ev.facts));
    hide PullsEffect, RowsGrown, LinkedAs, HasLinked;
    GrownConfirmed(env.listRows(st.entries), s1.rows, Keys(pull), id);
    ConfirmedIdsExist(env.listRows(st.entries), id);
    ConfirmedIdsExist(s1.rows, id);
    ListingExact(env, st, id);
    ExactLinked(env.listRows(st.entries), st, id, Confirmed);
  }

  /** A stored event survives a sync exactly when it was pulled, is excluded, is categorized, or has a
      confirmed entry linked to it. */
  lemma DeletedExactly(env: Env, st: State, pull: seq<Incoming>)
    requires env.Valid() && WellFormed(st) && Unshared(st, pull) && SyncEvents(env, st, pull).Done?
    ensures var st' := SyncEvents(env, st, pull).value.0;
            forall k :: k in st.events ==> (k in st'.events <==> k in Keys(pull) || Protected(st, st.events[k]))
  {
    var s1, s2 := SettledRuns(env, st, pull);
    hide Unshared, WellFormed, SyncEvents, PulledDone, RowsGrown, PullsEffect, VanishRun, VanishedDone, Protected;
    forall k | k in st.events ensures k in s2.st.events <==> k in Keys(pull) || Protected(st, st.events[k]) {
      DeletedAt(env, st, pull, s1, s2, k);
    }
  }

  /** What keeps a vanished event: an exclusion, a category, or a confirmed entry linked to it. */
  ghost predicate Protected(st: State, ev: Event) {
    || Excluded(st, SlotOf(ev.facts)) || Categorized(st, SlotOf(ev.facts))
    || HasLinked(st, IdentityOf(ev.calendar, ev.facts), Confirmed)
  }

  lemma DeletedAt(env: Env, st: State, pull: seq<Incoming>, s1: Sync, s2: Sync, k: EventKey)
    requires env.Valid() && WellFormed(st) && Unshared(st, pull) && k in st.events
    requires PullsEffect(st.events, pull, Start(env, st), s1)
    requires PulledDone(pull, s1.st) && RowsGrown(env.listRows(st.entries), s1.rows, Keys(pull))
    requires VanishRun(Keys(pull), BaseEvents(env, st.events), s1, s2)
    requires VanishedDone(Keys(pull), BaseEvents(env, st.events), s1, s2)
    ensures k in s2.st.events <==> k in Keys(pull) || Protected(st, st.events[k])
  {
    var ev := st.events[k];
    BaseListed(env, st);
    var gone := BaseEvents(env, st.events);
    assert EvKey(ev) == k && ev in gone;
    if k in Keys(pull) {
      PulledStays(Keys(pull), gone, pull, s1, s2, k);
    } else {
      hide PulledDone, RowsGrown, PullsEffect, VanishRun, VanishedOne, Stays, Distinct, HasLinked;
      StaysFromStart(env, st, pull, s1, ev);
      var i :| 0 <= i < |gone| && gone[i] == ev;
      assert VanishedOne(Keys(pull), gone[i], s1, s2);
      assert k in s2.st.events <==> Stays(Keys(pull), ev, s1) by { VanishedIff(Keys(pull), ev, s1, s2); }
    }
  }

  lemma PulledStays(seen: set<EventKey>, gone: seq<Event>, pull: seq<Incoming>, s1: Sync, s2: Sync, k: EventKey)
    requires VanishRun(seen, gone, s1, s2) && k in seen && k in Keys(pull) && PulledDone(pull, s1.st)
    ensures k in s2.st.events
  {
    var inc :| inc in pull && IncKey(inc) == k;
    var i :| 0 <= i < |pull| && pull[i] == inc;
    assert StoredAs(s1.st, pull[i]);
    assert KeyFrame(s1.st, s2.st, k);
    assert SameAt(s1.st.events, s2.st.events, k);
  }

  lemma VanishedIff(seen: set<EventKey>, ev: Event, s: Sync, s': Sync)
    requires VanishedOne(seen, ev, s, s')
    ensures EvKey(ev) in s'.st.events <==> Stays(seen, ev, s)
  {
  }

  // ── settled after the whole sync ────────────────────────────────────

  lemma PulledStillDone(env: Env, st: State, pull: seq<Incoming>, s1: Sync, s2: Sync, i: nat)
    requires env.Valid() && WellFormed(st) && WellFormed(s1.st) && Unshared(st, pull) && PulledDone(pull, s1.st) && i < |pull|
    requires VanishRun(Keys(pull), BaseEvents(env, st.events), s1, s2)
    ensures Settled(s2.st, pull[i]) && StoredAs(s2.st, pull[i])
  {
    var inc := pull[i];
    var gone := BaseEvents(env, st.events);
    BaseListed(env, st);
    assert IncKey(inc) in Keys(pull) && SlotOf(inc.facts) in Slots(pull);
    assert SlotOf(inc.facts) !in GoneSlots(Keys(pull), gone);
    assert Settled(s1.st, inc) && StoredAs(s1.st, inc);
    assert KeyFrame(s1.st, s2.st, IncKey(inc)) && SlotFrame(s1.st, s2.st, SlotOf(inc.facts));
    hide VanishRun, PulledDone, Settled, Unshared, WellFormed;
    SettledFrame(s1.st, s2.st, inc);
  }

  /** An excluded timed event that is still pulled ends the sync without a live linked draft. */
  lemma ExcludedHasNoDraft(env: Env, st: State, pull: seq<Incoming>, inc: Incoming)
    requires env.Valid() && WellFormed(st) && Unshared(st, pull) && SyncEvents(env, st, pull).Done?
    requires inc in pull && Timed(inc.facts)
    ensures var (st', _) := SyncEvents(env, st, pull).value;
            Excluded(st', SlotOf(inc.facts)) ==> !HasLinked(st', IncIdentity(inc), Draft)
  {
    var s1, s2 := SettledRuns(env, st, pull);
    var i :| 0 <= i < |pull| && pull[i] == inc;
    PulledStillDone(env, st, pull, s1, s2, i);
  }

  // ── idempotence ─────────────────────────────────────────────────────

  predicate Counted(r: Row, id: Identity) {
    r.te.attestation == Confirmed && Linked(r.te, id)
  }

  /** The confirmed rows of an identity are listed in an order that depends on those rows alone. */
  lemma {:induction false} SameConfirmed(a: seq<Row>, b: seq<Row>, id: Identity)
    requires InOrder(a) && InOrder(b)
    requires forall r :: Counted(r, id) ==> (r in a <==> r in b)
    ensures ConfirmedIds(a, id) == ConfirmedIds(b, id)
    decreases |a| + |b|
  {
    assert forall i :: 0 <= i < |a| && Counted(a[i], id) ==> a[i] in b;
    assert forall i :: 0 <= i < |b| && Counted(b[i], id) ==> b[i] in a;
    if |a| > 0 && !Counted(a[|a| - 1], id) {
      assert forall r :: Counted(r, id) ==> (r in a <==> r in a[..|a| - 1]) by { DropUncounted(a, id); }
      SameConfirmed(a[..|a| - 1], b, id);
    } else if |b| > 0 && !Counted(b[|b| - 1], id) {
      assert forall r :: Counted(r, id) ==> (r in b <==> r in b[..|b| - 1]) by { DropUncounted(b, id); }
      SameConfirmed(a, b[..|b| - 1], id);
    } else if |a| > 0 && |b| > 0 {
      var x, y := a[|a| - 1], b[|b| - 1];
      assert x in b && y in a;
      assert x == y;
      DropLastRow(a);
      DropLastRow(b);
      SameConfirmed(a[..|a| - 1], b[..|b| - 1], id);
    }
  }

  lemma DropUncounted(a: seq<Row>, id: Identity)
    requires |a| > 0 && !Counted(a[|a| - 1], id)
    ensures forall r :: Counted(r, id) ==> (r in a <==> r in a[..|a| - 1])
  {
    assert a == a[..|a| - 1] + [a[|a| - 1]];
  }

  lemma DropLastRow(a: seq<Row>)
    requires |a| > 0 && InOrder(a)
    ensures forall r :: r in a[..|a| - 1] <==> r in a && r != a[|a| - 1]
  {
    assert a == a[..|a| - 1] + [a[|a| - 1]];
  }

  /** A fresh listing after the sync names the same confirmed rows in the same order. */
  lemma ConfirmedIdsPersist(env: Env, st: State, st': State, id: Identity)
    requires env.Valid()
    requires forall x :: x in st.entries && st.entries[x].attestation == Confirmed ==> x in st'.entries && st'.entries[x] == st.entries[x]
    requires forall x :: x in st'.entries && Linked(st'.entries[x], id) && st'.entries[x].attestation == Confirmed
               ==> x in st.entries && st.entries[x] == st'.entries[x]
    ensures ConfirmedIds(env.listRows(st'.entries), id) == ConfirmedIds(env.listRows(st.entries), id)
  {
    var a, b := env.listRows(st.entries), env.listRows(st'.entries);
    assert Lists(a, st.entries) && Lists(b, st'.entries);
    forall r | Counted(r, id) ensures r in a <==> r in b {
      if r in a { assert Row(r.id, st'.entries[r.id]) in b; }
      if r in b { assert Row(r.id, st.entries[r.id]) in a; }
    }
    SameConfirmed(b, a, id);
  }

  lemma VanishSettledStable(env: Env, seen: set<EventKey>, ev: Event, s: Sync)
    requires VanishSettled(s.st, ev, s.rows) && EvKey(ev) !in seen
    ensures VanishOne(env, seen, ev, s) == Done(s)
  {
    var id := IdentityOf(ev.calendar, ev.facts);
    hide LinkedAs, DeletedPayload, ConfirmedIds;
    ConfirmedIdsExist(s.rows, id);
    if !Excluded(s.st, SlotOf(ev.facts)) && !Categorized(s.st, SlotOf(ev.facts)) {
      var rk := ReviewKey(SourceDrift, id, Drifted);
      var item := s.st.reviews[rk];
      assert s.st.reviews[rk := item.(payload := DeletedPayload(s.rows, ev))] == s.st.reviews;
    }
  }

  lemma {:induction false} SecondVanish(env: Env, seen: set<EventKey>, gone: seq<Event>, s: Sync)
    requires forall i :: 0 <= i < |gone| && EvKey(gone[i]) !in seen ==> VanishSettled(s.st, gone[i], s.rows)
    ensures VanishAll(env, seen, gone, s) == Done(s)
  {
    if |gone| > 0 {
      var init, ev := gone[..|gone| - 1], gone[|gone| - 1];
      SecondVanish(env, seen, init, s);
      if EvKey(ev) !in seen { VanishSettledStable(env, seen, ev, s); }
    }
  }

  lemma {:induction false} SecondPull(env: Env, st: State, pull: seq<Incoming>)
    requires env.Valid()
    requires forall i :: 0 <= i < |pull| ==> Settled(st, pull[i]) && StoredAs(st, pull[i])
    ensures PullAll(env, st.events, pull, Start(env, st)) == Done(Start(env, st).(res := Counts(0, 0, |pull|, 0, 0)))
  {
    if |pull| > 0 {
      hide Settled;
      var init, inc := pull[..|pull| - 1], pull[|pull| - 1];
      forall i | 0 <= i < |init| ensures Settled(st, init[i]) && StoredAs(st, init[i]) {
        assert init[i] == pull[i];
      }
      SecondPull(env, st, init);
      ListingExact(env, st, IncIdentity(inc));
      hide Materialize, ExactFor;
      SettledIsStable(env, st, inc, env.listRows(st.entries));
    }
  }

  lemma VanishedStillDone(env: Env, st: State, pull: seq<Incoming>, s1: Sync, s2: Sync, ev: Event)
    requires env.Valid() && WellFormed(st) && Unshared(st, pull)
    requires PullsEffect(st.events, pull, Start(env, st), s1) && RowsGrown(env.listRows(st.entries), s1.rows, Keys(pull))
    requires VanishRun(Keys(pull), BaseEvents(env, st.events), s1, s2)
    requires VanishedDone(Keys(pull), BaseEvents(env, st.events), s1, s2)
    requires EvKey(ev) in s2.st.events && s2.st.events[EvKey(ev)] == ev && EvKey(ev) !in Keys(pull)
    ensures VanishSettled(s2.st, ev, env.listRows(s2.st.entries))
  {
    var k := EvKey(ev);
    var gone := BaseEvents(env, st.events);
    var id := IdentityOf(ev.calendar, ev.facts);
    BaseListed(env, st);
    StoredBefore(env, st, pull, s1, s2, k);
    assert ev in gone;
    var i :| 0 <= i < |gone| && gone[i] == ev;
    assert VanishedOne(Keys(pull), gone[i], s1, s2);
    ConfirmedUntouched(env, st, pull, s1, s2, id);
    hide PullsEffect, VanishRun, VanishedDone, Distinct, RowsGrown, LinkedAs, Unshared, WellFormed;
    GrownConfirmed(env.listRows(st.entries), s1.rows, Keys(pull), id);
    ConfirmedIdsPersist(env, st, s2.st, id);
    ConfirmedIdsExist(s1.rows, id);
    ConfirmedIdsExist(env.listRows(s2.st.entries), id);
    hide Stays, ConfirmedIds;
    assert DeletedPayload(s1.rows, ev) == DeletedPayload(env.listRows(s2.st.entries), ev);
  }

  lemma StoredBefore(env: Env, st: State, pull: seq<Incoming>, s1: Sync, s2: Sync, k: EventKey)
    requires env.Valid() && PullsEffect(st.events, pull, Start(env, st), s1)
    requires VanishRun(Keys(pull), BaseEvents(env, st.events), s1, s2)
    requires k in s2.st.events && k !in Keys(pull)
    ensures k in st.events && st.events[k] == s2.st.events[k]
  {
    assert KeyFrame(st, s1.st, k);
    assert SameAt(st.events, s1.st.events, k);
  }

  /** The confirmed rows linked to an identity are the same before and after. */
  lemma ConfirmedUntouched(env: Env, st: State, pull: seq<Incoming>, s1: Sync, s2: Sync, id: Identity)
    requires env.Valid() && PullsEffect(st.events, pull, Start(env, st), s1) && IdentityKey(id) !in Keys(pull)
    requires VanishRun(Keys(pull), BaseEvents(env, st.events), s1, s2)
    ensures forall x :: x in st.entries && st.entries[x].attestation == Confirmed ==> x in s2.st.entries && s2.st.entries[x] == st.entries[x]
    ensures forall x :: x in s2.st.entries && Linked(s2.st.entries[x], id) && s2.st.entries[x].attestation == Confirmed
               ==> x in st.entries && st.entries[x] == s2.st.entries[x]
  {
    assert KeyFrame(st, s1.st, IdentityKey(id));
    EvolvedTrans(st, s1.st, s2.st);
    forall x | x in s2.st.entries && Linked(s2.st.entries[x], id) && s2.st.entries[x].attestation == Confirmed
      ensures x in st.entries && st.entries[x] == s2.st.entries[x]
    {
      assert x in s1.st.entries;
      assert EntryStep(s1.st.entries[x], s2.st.entries[x]);
    }
  }

  /** Idempotence: repeating a sync on the same pull changes no event, overlay, entry or review item,
      and counts every pulled event as unchanged. */
  lemma SyncIsIdempotent(env: Env, st: State, pull: seq<Incoming>)
    requires env.Valid() && WellFormed(st) && Unshared(st, pull) && SyncEvents(env, st, pull).Done?
    ensures var st' := SyncEvents(env, st, pull).value.0;
            SyncEvents(env, st', pull) == Done((st', Counts(0, 0, |pull|, 0, 0)))
  {
    var s1, s2 := SettledRuns(env, st, pull);
    var st' := s2.st;
    forall i | 0 <= i < |pull| ensures Settled(st', pull[i]) && StoredAs(st', pull[i]) {
      PulledStillDone(env, st, pull, s1, s2, i);
    }
    assert WellFormed(st') by { assert VanishInv(s2); }
    hide PullsEffect, VanishRun, VanishedDone, RowsGrown, PulledDone, Settled, StoredAs, VanishSettled, Unshared, WellFormed, PullAll, VanishAll;
    SecondPull(env, st', pull);
    BaseListed(env, st');
    var gone' := BaseEvents(env, st'.events);
    var again := Start(env, st').(res := Counts(0, 0, |pull|, 0, 0));
    forall i | 0 <= i < |gone'| && EvKey(gone'[i]) !in Keys(pull) ensures VanishSettled(again.st, gone'[i], again.rows) {
      assert gone'[i] in gone';
      VanishedStillDone(env, st, pull, s1, s2, gone'[i]);
    }
    SecondVanish(env, Keys(pull), gone', again);
  }
}
