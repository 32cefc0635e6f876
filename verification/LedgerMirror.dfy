/** What the live drafts of a pulled event hold after a sync: the event as pulled, or exactly what
    they held before when they already showed it. */
module LedgerMirror {
  import opened Wrappers
  import opened Intervals
  import opened LedgerTypes
  import opened LedgerSpec
  import opened LedgerSteps
  import opened LedgerDrafts
  import opened LedgerSync
  import opened LedgerRuns
  import opened LedgerTheorems
  import opened LedgerIdempotence
  import opened LedgerFlags
  import opened LedgerConflicts

  function RowAt(st: State, x: nat): Option<TimeEntry> {
    if x in st.entries then Some(st.entries[x]) else None
  }

  /** The draft that shows an event: its times, day, text and revision are the event's and its minutes those of
      its times. The category is the overlay's and otherwise the one the draft had; method and allocation stay the
      draft's. A new draft is imported work without project, its billing unset. */
  function Showing(env: Env, inc: Incoming, overlay: Option<int>, draft: Option<TimeEntry>): TimeEntry
    requires Timed(inc.facts)
  {
    var (start, end) := (inc.facts.start.value, inc.facts.end.value);
    var category := if overlay.Some? then overlay else if draft.Some? then draft.value.category else None;
    var how := if draft.Some? then draft.value.how else CalendarImport;
    var allocation := if draft.Some? then draft.value.allocation else Allocation(Worked, None, Unset);
    TimeEntry(Interval(start, end), Minutes(Interval(start, end)), env.localDay(start), category, inc.facts.title, Draft,
              Calendar(IncIdentity(inc)), Hash(inc.facts), how, allocation)
  }

  ghost predicate Shows(env: Env, was: State, st: State, inc: Incoming, x: nat)
    requires Timed(inc.facts) && x in st.entries
  {
    RowAt(was, x) == Some(st.entries[x])
    || st.entries[x] == Showing(env, inc, EffectiveCategory(st, SlotOf(inc.facts)), RowAt(was, x))
  }

  /** Every live draft of the event is as it was, or shows the event. */
  ghost predicate DraftsShow(env: Env, was: State, st: State, inc: Incoming)
    requires Timed(inc.facts)
  {
    forall x :: x in st.entries && Linked(st.entries[x], IncIdentity(inc)) && st.entries[x].attestation == Draft
      ==> Shows(env, was, st, inc, x)
  }

  // ── one materialization ─────────────────────────────────────────────

  lemma {:induction false} RefreshShows(env: Env, st: State, inc: Incoming, rows: seq<Row>)
    requires Timed(inc.facts) && RefreshAll(env, st, inc, rows).Done?
    requires forall r :: r in rows && Linked(r.te, IncIdentity(inc)) ==> r.id in st.entries && st.entries[r.id] == r.te
    ensures var st' := RefreshAll(env, st, inc, rows).value;
            && st' == st.(entries := st'.entries) && st'.entries.Keys == st.entries.Keys
            && forall x :: x in st'.entries ==> Shows(env, st, st', inc, x)
  {
    if |rows| > 0 {
      var init, last := rows[..|rows| - 1], rows[|rows| - 1];
      assert rows == init + [last];
      RefreshShows(env, st, inc, init);
      var mid := RefreshAll(env, st, inc, init).value;
      var st' := RefreshAll(env, st, inc, rows).value;
      assert RefreshOne(env, mid, inc, last) == Done(st');
      forall x | x in st'.entries ensures Shows(env, st, st', inc, x) {
        assert Shows(env, st, mid, inc, x);
        assert last in rows;
      }
    }
  }

  lemma MaterializeShows(env: Env, st: State, inc: Incoming, rows: seq<Row>, material: bool)
    requires WellFormed(st) && Tracks(rows, st.entries) && ExactFor(rows, st, IncIdentity(inc))
    requires Timed(inc.facts) && Materialize(env, st, inc, rows, material).Done?
    ensures DraftsShow(env, st, Materialize(env, st, inc, rows, material).value.0, inc)
  {
    hide WellFormed, EntriesStep, LinkedAs, Tracks, RefreshAll, OpenTentative, CreateEntry, BumpRevisions, Showing, AllDismissed;
    var id := IncIdentity(inc);
    if Excluded(st, SlotOf(inc.facts)) {
      DismissStep(st, rows, id);
    } else if NeedsAnswer(inc.status) && OpenTentative(st, IncKey(inc)) {
    } else if LinkedAs(rows, id, Confirmed) || LinkedAs(rows, id, Draft) {
      RefreshShows(env, st, inc, rows);
    } else if AllDismissed(rows, id) && !material {
      BumpSettles(st, inc, rows);
    } else {
      CreateShows(env, st, inc);
    }
  }

  lemma CreateShows(env: Env, st: State, inc: Incoming)
    requires WellFormed(st) && Timed(inc.facts)
    ensures DraftsShow(env, st, CreateEntry(st, ProposalOf(env, inc, EffectiveCategory(st, SlotOf(inc.facts)))), inc)
  {
  }

  // ── the pull loop ───────────────────────────────────────────────────

  lemma PreparedShows(env: Env, base: map<EventKey, Event>, inc: Incoming, s: Sync, st1: State, flagged: nat, material: bool)
    requires PullInv(base, s) && Prepared(base, inc, s, st1, flagged) && ExactFor(s.rows, s.st, IncIdentity(inc))
    requires Timed(inc.facts) && Materialize(env, st1, inc, s.rows, material).Done?
    ensures DraftsShow(env, s.st, Materialize(env, st1, inc, s.rows, material).value.0, inc)
  {
    PreparedTracks(base, inc, s, st1, flagged);
    assert WellFormed(st1);
    hide PullInv, Local, ReviewsKept, CategoriesKept, ExclusionKept, NoOldDecisions, OpenItems, WellFormed, Tracks;
    if Excluded(st1, SlotOf(inc.facts)) {
      hide Prepared, EntriesStep, StaleDrafts;
      DismissStep(st1, s.rows, IncIdentity(inc));
    } else {
      hide Materialize, Showing;
      MaterializeShows(env, st1, inc, s.rows, material);
    }
  }

  lemma PullOneShows(env: Env, base: map<EventKey, Event>, inc: Incoming, s: Sync)
    requires env.Valid() && PullInv(base, s) && ExactFor(s.rows, s.st, IncIdentity(inc))
    requires Timed(inc.facts) && PullOne(env, base, inc, s).Done?
    ensures DraftsShow(env, s.st, PullOne(env, base, inc, s).value.st, inc)
  {
    hide PullInv, Prepared, Materialize, HandleNew, HandleChanged, UpsertEvent, ExactFor, DraftsShow;
    var k := IncKey(inc);
    if k !in base {
      PrepareNew(env, base, inc, s);
      var (st1, flagged) := HandleNew(env, UpsertEvent(s.st, inc), inc, s.rows).value;
      PreparedShows(env, base, inc, s, st1, flagged, false);
    } else if base[k].facts == inc.facts {
      PrepareSame(base, inc, s);
      PreparedShows(env, base, inc, s, s.st, 0, false);
    } else {
      PrepareChanged(env, base, inc, s);
      var (st1, flagged) := HandleChanged(env, UpsertEvent(s.st, inc), base[k], inc, s.rows).value;
      PreparedShows(env, base, inc, s, st1, flagged, TitleMaterial(env, base[k], inc) || IncludeDropped(base[k], inc));
    }
  }

  /** What an event's drafts show survives steps about other events. */
  lemma ShowsLater(env: Env, was: State, st: State, st': State, inc: Incoming)
    requires Timed(inc.facts) && DraftsShow(env, was, st, inc)
    requires KeyFrame(st, st', IncKey(inc)) && SlotFrame(st, st', SlotOf(inc.facts))
    ensures DraftsShow(env, was, st', inc)
  {
    hide Showing;
    forall x | x in st'.entries && Linked(st'.entries[x], IncIdentity(inc)) && st'.entries[x].attestation == Draft
      ensures Shows(env, was, st', inc, x)
    {
      assert LinkedTo(st'.entries[x], IncKey(inc));
      assert Shows(env, was, st, inc, x);
    }
  }

  /** Steps about other events before it do not matter either. */
  lemma ShowsEarlier(env: Env, was: State, mid: State, st: State, inc: Incoming)
    requires Timed(inc.facts) && DraftsShow(env, mid, st, inc)
    requires KeyFrame(was, mid, IncKey(inc)) && (forall x :: x in was.entries && x in st.entries ==> x in mid.entries)
    requires forall x :: x in mid.entries && x in st.entries ==> st.entries[x].source == mid.entries[x].source
    ensures DraftsShow(env, was, st, inc)
  {
    hide Showing;
    forall x | x in st.entries && Linked(st.entries[x], IncIdentity(inc)) && st.entries[x].attestation == Draft
      ensures Shows(env, was, st, inc, x)
    {
      assert LinkedTo(st.entries[x], IncKey(inc));
      assert Shows(env, mid, st, inc, x);
      assert RowAt(was, x) == RowAt(mid, x);
    }
  }

  /** Every timed event of the pull has drafts that show it. */
  ghost predicate AllShown(env: Env, was: State, st: State, pull: seq<Incoming>) {
    forall i :: 0 <= i < |pull| && Timed(pull[i].facts) ==> DraftsShow(env, was, st, pull[i])
  }

  lemma {:induction false} PullAllShows(env: Env, pull: seq<Incoming>, s: Sync)
    requires env.Valid() && PullInv(s.st.events, s) && DistinctPull(pull)
    requires forall i :: 0 <= i < |pull| ==> ExactFor(s.rows, s.st, IncIdentity(pull[i]))
    requires PullAll(env, s.st.events, pull, s).Done?
    ensures AllShown(env, s.st, PullAll(env, s.st.events, pull, s).value.st, pull)
  {
    hide PullInv, PullsEffect, PullEffect, Proposals, PullOne, ExactFor, RowsGrown, Evolved, Grew, PulledDone, DraftsShow, DistinctPull;
    if |pull| > 0 {
      var base := s.st.events;
      var init, inc := pull[..|pull| - 1], pull[|pull| - 1];
      PrefixDistinct(init, inc, pull);
      PullAllShows(env, init, s);
      PullAllSettles(env, init, s);
      var mid := PullAll(env, base, init, s).value;
      PullAllStep(env, base, init, s);
      PullOneStep(env, base, inc, mid);
      var s' := PullOne(env, base, inc, mid).value;
      LastShows(env, init, inc, s, mid, s');
      EarlierShown(env, base, init, inc, s, mid, s');
    }
  }

  lemma LastShows(env: Env, init: seq<Incoming>, inc: Incoming, s: Sync, mid: Sync, s': Sync)
    requires env.Valid() && IncKey(inc) !in Keys(init) && ExactFor(s.rows, s.st, IncIdentity(inc))
    requires PullsEffect(s.st.events, init, s, mid) && PullInv(s.st.events, mid) && RowsGrown(s.rows, mid.rows, Keys(init))
    requires PullOne(env, s.st.events, inc, mid) == Done(s') && PullEffect(env, s.st.events, inc, mid, s')
    ensures Timed(inc.facts) ==> DraftsShow(env, s.st, s'.st, inc)
  {
    assert KeyFrame(s.st, mid.st, IncKey(inc));
    LocalFrames(mid.st, s'.st, IncKey(inc), SlotOf(inc.facts));
    assert Evolved(s.st, mid.st) && Evolved(mid.st, s'.st);
    hide PullsEffect, PullInv, PullOne, PullEffect, DraftsShow, RowsGrown, ExactFor, KeyFrame, SlotFrame;
    ExactAfterGrowth(s.rows, mid.rows, s.st, mid.st, Keys(init), IncIdentity(inc));
    if Timed(inc.facts) {
      PullOneShows(env, s.st.events, inc, mid);
      ShowsEarlier(env, s.st, mid.st, s'.st, inc);
    }
  }

  lemma EarlierShown(env: Env, base: map<EventKey, Event>, init: seq<Incoming>, inc: Incoming, s: Sync, mid: Sync, s': Sync)
    requires DistinctPull(init + [inc]) && AllShown(env, s.st, mid.st, init)
    requires PullEffect(env, base, inc, mid, s')
    requires Timed(inc.facts) ==> DraftsShow(env, s.st, s'.st, inc)
    ensures AllShown(env, s.st, s'.st, init + [inc])
  {
    LocalFrames(mid.st, s'.st, IncKey(inc), SlotOf(inc.facts));
    hide PullEffect, DraftsShow, KeyFrame, SlotFrame, Evolved;
    var pull := init + [inc];
    forall i | 0 <= i < |pull| && Timed(pull[i].facts) ensures DraftsShow(env, s.st, s'.st, pull[i]) {
      if i < |init| {
        assert init[i] == pull[i] && inc == pull[|init|];
        ShowsLater(env, s.st, mid.st, s'.st, init[i]);
      }
    }
  }

  // ── the whole sync ──────────────────────────────────────────────────

  lemma PulledShown(env: Env, st: State, pull: seq<Incoming>, s1: Sync)
    requires env.Valid() && WellFormed(st) && DistinctPull(pull)
    requires PullAll(env, st.events, pull, Start(env, st)) == Done(s1)
    ensures AllShown(env, st, s1.st, pull)
  {
    hide PullInv, ExactFor, AllShown, DistinctPull, WellFormed, PullAll;
    StartInv(env, st);
    forall i | 0 <= i < |pull| ensures ExactFor(env.listRows(st.entries), st, IncIdentity(pull[i])) {
      ListingExact(env, st, IncIdentity(pull[i]));
    }
    PullAllShows(env, pull, Start(env, st));
  }

  lemma ShownAfterVanish(env: Env, st: State, pull: seq<Incoming>, s1: Sync, s2: Sync, i: nat)
    requires env.Valid() && WellFormed(st) && Unshared(st, pull) && i < |pull| && Timed(pull[i].facts)
    requires VanishRun(Keys(pull), BaseEvents(env, st.events), s1, s2) && DraftsShow(env, st, s1.st, pull[i])
    ensures DraftsShow(env, st, s2.st, pull[i])
  {
    var inc := pull[i];
    BaseListed(env, st);
    assert IncKey(inc) in Keys(pull) && SlotOf(inc.facts) in Slots(pull);
    assert SlotOf(inc.facts) !in GoneSlots(Keys(pull), BaseEvents(env, st.events));
    assert KeyFrame(s1.st, s2.st, IncKey(inc)) && SlotFrame(s1.st, s2.st, SlotOf(inc.facts));
    hide VanishRun, Unshared, DraftsShow;
    ShowsLater(env, st, s1.st, s2.st, inc);
  }

  /** After a sync, a live draft of a pulled timed event shows the event as pulled, keeping the user's
      category where no overlay is set; or it is untouched, and then it already stood at the pulled
      revision or the event still awaits an answer. An excluded event has no live draft. */
  lemma DraftsMirrorThePull(env: Env, st: State, pull: seq<Incoming>, inc: Incoming)
    requires env.Valid() && WellFormed(st) && Unshared(st, pull) && SyncEvents(env, st, pull).Done?
    requires inc in pull && Timed(inc.facts)
    ensures var st' := SyncEvents(env, st, pull).value.0;
            forall x :: x in st'.entries && Linked(st'.entries[x], IncIdentity(inc)) && st'.entries[x].attestation == Draft ==>
              && !Excluded(st', SlotOf(inc.facts))
              && (st'.entries[x] == Showing(env, inc, EffectiveCategory(st', SlotOf(inc.facts)), RowAt(st, x))
                  || (RowAt(st, x) == Some(st'.entries[x])
                      && (st'.entries[x].revision == Hash(inc.facts)
                          || (NeedsAnswer(inc.status) && OpenTentative(st', IncKey(inc))))))
  {
    hide PullInv, PullsEffect, VanishRun, Unshared, WellFormed, VanishedDone, RowsGrown, PulledDone, ExactFor, Showing, SyncEvents;
    var s1, s2 := SettledRuns(env, st, pull);
    var i :| 0 <= i < |pull| && pull[i] == inc;
    PulledStillDone(env, st, pull, s1, s2, i);
    assert DistinctPull(pull) by { Apart(st, pull); }
    PulledShown(env, st, pull, s1);
    ShownAfterVanish(env, st, pull, s1, s2, i);
    assert forall x :: x in s2.st.entries && Linked(s2.st.entries[x], IncIdentity(inc)) && s2.st.entries[x].attestation == Draft
             ==> Shows(env, st, s2.st, inc, x) && HasLinked(s2.st, IncIdentity(inc), Draft);
  }

  /** After a sync, a pulled timed event that is neither excluded nor awaiting an answer has a linked row:
      a live one, or dismissed ones that have seen the pulled revision. */
  lemma IncludedIsProposed(env: Env, st: State, pull: seq<Incoming>, inc: Incoming)
    requires env.Valid() && WellFormed(st) && Unshared(st, pull) && SyncEvents(env, st, pull).Done?
    requires inc in pull && Timed(inc.facts)
    ensures var (st', id) := (SyncEvents(env, st, pull).value.0, IncIdentity(inc));
            !Excluded(st', SlotOf(inc.facts)) && !(NeedsAnswer(inc.status) && OpenTentative(st', IncKey(inc))) ==>
              || HasLinked(st', id, Draft) || HasLinked(st', id, Confirmed)
              || (HasLinked(st', id, Dismissed) && UpToDate(st', id, Dismissed, Hash(inc.facts)))
  {
    var s1, s2 := SettledRuns(env, st, pull);
    var i :| 0 <= i < |pull| && pull[i] == inc;
    PulledStillDone(env, st, pull, s1, s2, i);
  }

  // ── what a change revives ───────────────────────────────────────────

  ghost predicate Represented(st: State, inc: Incoming) {
    || Excluded(st, SlotOf(inc.facts)) || (NeedsAnswer(inc.status) && OpenTentative(st, IncKey(inc)))
    || HasLinked(st, IncIdentity(inc), Draft) || HasLinked(st, IncIdentity(inc), Confirmed)
  }

  lemma MaterializeRevives(env: Env, st: State, inc: Incoming, rows: seq<Row>)
    requires WellFormed(st) && ExactFor(rows, st, IncIdentity(inc))
    requires Timed(inc.facts) && Materialize(env, st, inc, rows, true).Done?
    ensures Represented(Materialize(env, st, inc, rows, true).value.0, inc)
  {
    hide WellFormed, ExactFor, HasLinked, UpToDate, LinkedAs, AllDismissed, EntriesStep, OpenTentative, RefreshAll, BumpRevisions, DismissLinked, CreateEntry;
    var id := IncIdentity(inc);
    if Excluded(st, SlotOf(inc.facts)) {
      DismissedSlots(st, rows, id);
    } else if NeedsAnswer(inc.status) && OpenTentative(st, IncKey(inc)) {
    } else {
      ExactLinked(rows, st, id, Confirmed);
      ExactLinked(rows, st, id, Draft);
      if LinkedAs(rows, id, Confirmed) || LinkedAs(rows, id, Draft) {
        RefreshSettles(env, st, inc, rows);
      } else {
        CreateSettles(env, st, inc);
      }
    }
  }

  lemma DismissedSlots(st: State, rows: seq<Row>, id: Identity)
    requires DismissLinked(st, rows, id).Done?
    ensures DismissLinked(st, rows, id).value.overlays == st.overlays
  {
  }

  lemma PreparedRevives(env: Env, base: map<EventKey, Event>, inc: Incoming, s: Sync, st1: State, flagged: nat)
    requires PullInv(base, s) && Prepared(base, inc, s, st1, flagged) && ExactFor(s.rows, s.st, IncIdentity(inc))
    requires Timed(inc.facts) && Materialize(env, st1, inc, s.rows, true).Done?
    ensures Represented(Materialize(env, st1, inc, s.rows, true).value.0, inc)
  {
    assert WellFormed(st1);
    hide PullInv, Local, ReviewsKept, CategoriesKept, ExclusionKept, NoOldDecisions, OpenItems, WellFormed, HasLinked, DismissLinked, OpenTentative;
    if Excluded(st1, SlotOf(inc.facts)) {
      DismissedSlots(st1, s.rows, IncIdentity(inc));
    } else {
      hide Materialize;
      SameExact(s.rows, s.st, st1, IncIdentity(inc));
      MaterializeRevives(env, st1, inc, s.rows);
    }
  }

  lemma SameExact(rows: seq<Row>, a: State, b: State, id: Identity)
    requires ExactFor(rows, a, id) && a.entries == b.entries
    ensures ExactFor(rows, b, id)
  {
  }

  lemma PulledRevives(env: Env, base: map<EventKey, Event>, inc: Incoming, s: Sync)
    requires env.Valid() && PullInv(base, s) && ExactFor(s.rows, s.st, IncIdentity(inc)) && Timed(inc.facts)
    requires Material(env, base, inc) && PullOne(env, base, inc, s).Done?
    ensures Represented(PullOne(env, base, inc, s).value.st, inc)
  {
    hide PullInv, Prepared, Materialize, HandleChanged, UpsertEvent, ExactFor, Represented;
    PrepareChanged(env, base, inc, s);
    var (st1, flagged) := HandleChanged(env, UpsertEvent(s.st, inc), base[IncKey(inc)], inc, s.rows).value;
    PreparedRevives(env, base, inc, s, st1, flagged);
  }

  lemma ProposedLater(st: State, st': State, inc: Incoming)
    requires WellFormed(st) && Represented(st, inc) && KeyFrame(st, st', IncKey(inc))
    requires Excluded(st, SlotOf(inc.facts)) ==> Excluded(st', SlotOf(inc.facts))
    ensures Represented(st', inc)
  {
    hide Excluded, HasLinked;
    LinkedFrame(st, st', IncIdentity(inc));
    if OpenTentative(st, IncKey(inc)) {
      var rk :| rk in st.reviews && rk.kind == TentativeEvent && st.reviews[rk].status == Open && st.reviews[rk].event == IncKey(inc);
      assert SameAt(st.reviews, st'.reviews, rk);
    }
  }

  /** A dismissed proposal comes back when the title of its event changes or the user falls back from an answer that
      included it: after the sync the event has a live row, unless it is excluded or awaits an answer. */
  lemma ChangeRevives(env: Env, st: State, pull: seq<Incoming>, inc: Incoming)
    requires env.Valid() && WellFormed(st) && DistinctPull(pull) && SyncEvents(env, st, pull).Done?
    requires inc in pull && Timed(inc.facts) && Material(env, st.events, inc)
    ensures Represented(SyncEvents(env, st, pull).value.0, inc)
  {
    hide PullInv, PullsEffect, VanishRun, Proposals, SyncEvents, PullAll, WellFormed, RowsGrown, DistinctPull, ExactFor, KeyFrame, SlotFrame, PullOne, Represented, Material;
    var s0 := Start(env, st);
    var s1, s2 := SyncRuns(env, st, pull);
    StartInv(env, st);
    var i :| 0 <= i < |pull| && pull[i] == inc;
    var mid, next := PulledAt(env, pull, s0, i);
    ListingExact(env, st, IncIdentity(inc));
    ApartFromPrefix(pull, i);
    ExactAfterGrowth(s0.rows, mid.rows, st, mid.st, Keys(pull[..i]), IncIdentity(inc));
    PulledRevives(env, st.events, inc, mid);
    UntilTheEnd(env, st, pull, next.st, s1, s2, inc);
    InvIsWellFormed(st.events, next);
    ProposedLater(next.st, s2.st, inc);
  }

  lemma InvIsWellFormed(base: map<EventKey, Event>, s: Sync)
    requires PullInv(base, s)
    ensures WellFormed(s.st)
  {
  }
}
