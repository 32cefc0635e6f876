/** Which category a sync gives a new event: a remembered one first, then the one its slot already
    has, then the calendar's default, then a suggestion. */
module LedgerCategories {
  import opened Wrappers
  import opened LedgerTypes
  import opened LedgerSpec
  import opened LedgerSteps
  import opened LedgerDrafts
  import opened LedgerSync
  import opened LedgerRuns
  import opened LedgerTheorems
  import opened LedgerIdempotence

  /** What was remembered for a series by its id, and for any other event by its title and organizer: an event of
      a series never falls back on its title. */
  function Remembered(env: Env, f: Facts): Option<int> {
    var mk := if f.recurring != "" then ByRecurring(f.recurring) else ByTitle(env.normalize(f.title), env.organizerKey(f.organizer));
    if mk in env.memory then Some(env.memory[mk]) else None
  }

  function Precedence(env: Env, had: Option<int>, inc: Incoming): Option<int> {
    if Remembered(env, inc.facts).Some? then Remembered(env, inc.facts)
    else if had.Some? then had
    else if inc.calendar in env.calendarDefault && env.calendarDefault[inc.calendar].Some? then env.calendarDefault[inc.calendar]
    else env.suggest(inc)
  }

  ghost predicate Given(env: Env, was: State, st: State, inc: Incoming) {
    EffectiveCategory(st, SlotOf(inc.facts)) == Precedence(env, EffectiveCategory(was, SlotOf(inc.facts)), inc)
  }

  lemma GivenByHandling(env: Env, st: State, inc: Incoming, rows: seq<Row>)
    requires WellFormed(st) && IncKey(inc) in st.events && AllOpenAt(st, IncKey(inc))
    ensures HandleNew(env, st, inc, rows).Done? && Given(env, st, HandleNew(env, st, inc, rows).value.0, inc)
  {
    hide WellFormed, OnNewEvent, ReviewsKept, ReviewsElsewhere, AllOpenAt, OpenItems;
    OnNewEventNeverReplays(env, st, inc, rows);
    var (st1, n, _) := OnNewEvent(env, st, inc, rows).value;
    OpenedLocal(st, st1, IncKey(inc), SlotOf(inc.facts), n);
    GivenByOverlays(env, st1, inc);
  }

  lemma GivenByOverlays(env: Env, st: State, inc: Incoming)
    ensures Given(env, st, AutoCategorize(env, st, inc), inc)
  {
  }

  lemma NewlyStored(base: map<EventKey, Event>, inc: Incoming, s: Sync)
    requires PullInv(base, s) && IncKey(inc) !in base
    ensures var st0 := UpsertEvent(s.st, inc);
            WellFormed(st0) && IncKey(inc) in st0.events && AllOpenAt(st0, IncKey(inc)) && st0.overlays == s.st.overlays
  {
    UpsertStep(s.st, inc);
    assert AllOpenAt(UpsertEvent(s.st, inc), IncKey(inc));
  }

  lemma MaterializeOverlays(env: Env, base: map<EventKey, Event>, inc: Incoming, s: Sync, st: State, flagged: nat)
    requires PullInv(base, s) && Prepared(base, inc, s, st, flagged) && Materialize(env, st, inc, s.rows, false).Done?
    ensures Materialize(env, st, inc, s.rows, false).value.0.overlays == st.overlays
  {
    hide PullInv, Materialize, Tracks, EntriesStep, Proposed, WellFormed, Local, ReviewsKept, CategoriesKept, ExclusionKept, NoOldDecisions, OpenItems;
    PreparedTracks(base, inc, s, st, flagged);
    MaterializeStep(env, st, inc, s.rows, false);
  }

  lemma GivenByPull(env: Env, base: map<EventKey, Event>, inc: Incoming, s: Sync)
    requires env.Valid() && PullInv(base, s) && IncKey(inc) !in base && PullOne(env, base, inc, s).Done?
    ensures Given(env, s.st, PullOne(env, base, inc, s).value.st, inc)
  {
    hide PullInv, Prepared, HandleNew, UpsertEvent, AllOpenAt, WellFormed, Precedence, Materialize;
    var st0 := UpsertEvent(s.st, inc);
    NewlyStored(base, inc, s);
    PrepareNew(env, base, inc, s);
    GivenByHandling(env, st0, inc, s.rows);
    var (st1, flagged) := HandleNew(env, st0, inc, s.rows).value;
    MaterializeOverlays(env, base, inc, s, st1, flagged);
  }

  /** Every pulled event that was not stored has been given its category. */
  ghost predicate AllGiven(env: Env, was: State, st: State, pull: seq<Incoming>) {
    forall i :: 0 <= i < |pull| && IncKey(pull[i]) !in was.events ==> Given(env, was, st, pull[i])
  }

  lemma {:induction false} GivenByPulls(env: Env, pull: seq<Incoming>, s: Sync)
    requires env.Valid() && PullInv(s.st.events, s) && DistinctPull(pull)
    requires PullAll(env, s.st.events, pull, s).Done?
    ensures AllGiven(env, s.st, PullAll(env, s.st.events, pull, s).value.st, pull)
  {
    hide PullInv, PullsEffect, PullEffect, Proposals, PullOne, Given, Evolved, Grew, DistinctPull;
    if |pull| > 0 {
      var base := s.st.events;
      var init, inc := pull[..|pull| - 1], pull[|pull| - 1];
      PrefixDistinct(init, inc, pull);
      GivenByPulls(env, init, s);
      var mid := PullAll(env, base, init, s).value;
      PullAllStep(env, base, init, s);
      PullOneStep(env, base, inc, mid);
      GivenStep(env, init, inc, s, mid, PullOne(env, base, inc, mid).value);
    }
  }

  lemma GivenStep(env: Env, init: seq<Incoming>, inc: Incoming, s: Sync, mid: Sync, s': Sync)
    requires env.Valid() && DistinctPull(init + [inc]) && AllGiven(env, s.st, mid.st, init)
    requires PullsEffect(s.st.events, init, s, mid) && PullInv(s.st.events, mid)
    requires PullOne(env, s.st.events, inc, mid) == Done(s') && PullEffect(env, s.st.events, inc, mid, s')
    ensures AllGiven(env, s.st, s'.st, init + [inc])
  {
    var pull := init + [inc];
    assert SlotOf(inc.facts) !in Slots(init) by { ApartFromLast(init, inc); }
    assert SlotFrame(s.st, mid.st, SlotOf(inc.facts));
    LocalFrames(mid.st, s'.st, IncKey(inc), SlotOf(inc.facts));
    hide PullsEffect, PullInv, PullEffect, PullOne, Evolved, KeyFrame, Precedence;
    forall i | 0 <= i < |pull| && IncKey(pull[i]) !in s.st.events ensures Given(env, s.st, s'.st, pull[i]) {
      if i < |init| {
        assert init[i] == pull[i] && inc == pull[|init|];
        assert Given(env, s.st, mid.st, init[i]) && SlotFrame(mid.st, s'.st, SlotOf(pull[i].facts));
      } else {
        GivenByPull(env, s.st.events, inc, mid);
      }
    }
  }

  lemma ApartFromLast(init: seq<Incoming>, inc: Incoming)
    requires DistinctPull(init + [inc])
    ensures SlotOf(inc.facts) !in Slots(init)
  {
    var pull := init + [inc];
    forall x | x in init ensures SlotOf(x.facts) != SlotOf(inc.facts) {
      var i :| 0 <= i < |init| && init[i] == x;
      assert pull[i] == x && pull[|init|] == inc;
    }
  }

  /** After a sync, an event the pull brought in for the first time has the category that memory, its
      slot, the calendar's default and the suggestion give it, in this order of precedence. */
  lemma NewEventCategory(env: Env, st: State, pull: seq<Incoming>, inc: Incoming)
    requires env.Valid() && WellFormed(st) && Unshared(st, pull) && SyncEvents(env, st, pull).Done?
    requires inc in pull && IncKey(inc) !in st.events
    ensures EffectiveCategory(SyncEvents(env, st, pull).value.0, SlotOf(inc.facts))
         == Precedence(env, EffectiveCategory(st, SlotOf(inc.facts)), inc)
  {
    var s1, s2 := SyncRuns(env, st, pull);
    StartInv(env, st);
    BaseListed(env, st);
    assert SlotOf(inc.facts) in Slots(pull);
    assert SlotOf(inc.facts) !in GoneSlots(Keys(pull), BaseEvents(env, st.events));
    assert SlotFrame(s1.st, s2.st, SlotOf(inc.facts));
    assert DistinctPull(pull);
    hide PullInv, PullsEffect, VanishRun, Proposals, SyncEvents, Unshared, DistinctPull, WellFormed, Precedence, PullAll;
    GivenByPulls(env, pull, Start(env, st));
    var i :| 0 <= i < |pull| && pull[i] == inc;
    assert Given(env, st, s1.st, pull[i]);
  }
}
