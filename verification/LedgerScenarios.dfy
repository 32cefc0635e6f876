/** Concrete runs from the empty ledger. In most of them the events of two calendars share an overlay slot:
    the second event brings a category back to the slot of a recorded decision, which a later sync then
    replays. */
module LedgerScenarios {
  import opened Wrappers
  import opened Intervals
  import opened LedgerTypes
  import opened LedgerSpec
  import opened LedgerSteps
  import opened LedgerRuns
  import opened LedgerTheorems
  import opened LedgerFlags
  import opened LedgerOutcome
  import opened LedgerUser
  import opened LedgerConfirm
  import opened LedgerDecisions
  import opened LedgerHistory
  import opened LedgerExamples

  // ── what one sync does to events without times ──────────────────────

  lemma OnePull(env: Env, base: map<EventKey, Event>, inc: Incoming, s: Sync)
    ensures PullAll(env, base, [inc], s) == PullOne(env, base, inc, s)
  {
    assert [inc][..0] == [];
    assert PullAll(env, base, [], s) == Done(s);
  }

  lemma TwoPulls(env: Env, base: map<EventKey, Event>, a: Incoming, b: Incoming, s: Sync, mid: Sync)
    requires PullOne(env, base, a, s) == Done(mid)
    ensures PullAll(env, base, [a, b], s) == PullOne(env, base, b, mid)
  {
    OnePull(env, base, a, s);
    assert [a, b][..1] == [a];
  }

  lemma SamePulled(env: Env, base: map<EventKey, Event>, inc: Incoming, s: Sync)
    requires !Timed(inc.facts) && IncKey(inc) in base && base[IncKey(inc)].facts == inc.facts
    ensures PullOne(env, base, inc, s) == Done(s.(res := s.res.(kept := s.res.kept + 1)))
  {
  }

  /** Calendar defaults for two calendars, and no category memory. */
  ghost predicate TwoDefaults(env: Env) {
    env.Valid() && env.hasTz && env.memory == map[] && env.calendarDefault == map[1 := Some(7), 2 := Some(8)]
  }

  ghost function TwoCalendars(offset: int): Env {
    PlainEnv(offset).(calendarDefault := map[1 := Some(7), 2 := Some(8)])
  }

  /** Environments for the runs below exist, with a midnight at any chosen instant of the first day. */
  lemma TwoDefaultsExist(offset: int)
    ensures var env := TwoCalendars(offset); TwoDefaults(env) && env.zoneOf(env.localDay(0)).Midnight(offset)
  {
    hide DayAt, PlainZone, Lists, ListsKeys, SortedRows, SomeKeys;
    PlainEnvValid(offset);
    PlainZoneValid(offset);
    SameListings(PlainEnv(offset), TwoCalendars(offset));
  }

  lemma SameListings(a: Env, b: Env)
    requires a.Valid() && b.listRows == a.listRows && b.listKeys == a.listKeys && b.zoneOf == a.zoneOf
    ensures b.Valid()
  {
  }

  function WithNew(st: State, inc: Incoming, category: int): State {
    var ok := OverlayKey(SlotOf(inc.facts), CategoryKind);
    State(st.events[IncKey(inc) := Event(inc.calendar, inc.facts, inc.status, true)], st.overlays[ok := CategoryOverlay(category)],
          st.entries, st.nextEntry,
          if inc.facts.allDay then st.reviews[AllDayKey(inc) := Review(IncKey(inc), Titled(inc.facts.title), Open, NoAction)]
          else st.reviews)
  }

  function AllDayKey(inc: Incoming): ReviewKey {
    ReviewKey(AllDayEvent, IncIdentity(inc), Dates(inc.facts.startDate, inc.facts.endDate))
  }

  lemma NewPulled(env: Env, base: map<EventKey, Event>, inc: Incoming, s: Sync, category: int)
    requires TwoDefaults(env) && inc.calendar in env.calendarDefault && env.calendarDefault[inc.calendar] == Some(category)
    requires inc.facts.start.None? && inc.status == Accepted && IncKey(inc) !in base && IncKey(inc) !in s.st.events
    requires !Categorized(s.st, SlotOf(inc.facts)) && AllDayKey(inc) !in s.st.reviews
    ensures var o := PullOne(env, base, inc, s); o.Done? && o.value.st == WithNew(s.st, inc, category) && o.value.rows == s.rows
  {
    var st0 := UpsertEvent(s.st, inc);
    assert MatchKeyOf(env, inc.facts) !in env.memory;
    var (st1, n, skip) := OnNewEvent(env, st0, inc, s.rows).value;
    assert !skip && st1 == st0.(reviews := st1.reviews);
    NewCategory(env, st1, inc, category);
  }

  lemma NewCategory(env: Env, st: State, inc: Incoming, category: int)
    requires env.memory == map[] && inc.calendar in env.calendarDefault && env.calendarDefault[inc.calendar] == Some(category)
    requires !Categorized(st, SlotOf(inc.facts))
    ensures AutoCategorize(env, st, inc)
         == st.(overlays := st.overlays[OverlayKey(SlotOf(inc.facts), CategoryKind) := CategoryOverlay(category)])
  {
  }

  /** A changed event without category or confirmed rows is stored and nothing else. */
  lemma PlainChange(env: Env, base: map<EventKey, Event>, inc: Incoming, s: Sync)
    requires !Timed(inc.facts) && IncKey(inc) in base && base[IncKey(inc)].facts != inc.facts
    requires !Categorized(s.st, SlotOf(inc.facts)) && DriftedIds(s.rows, IncIdentity(inc), Hash(inc.facts)) == []
    ensures var o := PullOne(env, base, inc, s); o.Done? && o.value.st == UpsertEvent(s.st, inc) && o.value.rows == s.rows
  {
  }

  /** When every other listed event was pulled, the vanish loop comes down to one event. */
  lemma {:induction false} OneVanishes(env: Env, seen: set<EventKey>, gone: seq<Event>, ev: Event, s: Sync)
    requires Distinct(gone) && ev in gone && EvKey(ev) !in seen
    requires forall e :: e in gone && e != ev ==> EvKey(e) in seen
    ensures VanishAll(env, seen, gone, s) == VanishOne(env, seen, ev, s)
  {
    var init, last := gone[..|gone| - 1], gone[|gone| - 1];
    assert gone == init + [last];
    if last == ev {
      forall e | e in init ensures EvKey(e) in seen {
        var i :| 0 <= i < |init| && init[i] == e;
        assert EvKey(gone[i]) != EvKey(gone[|init|]);
      }
      NoneVanish(env, seen, init, s);
    } else {
      assert last in gone;
      assert forall i :: 0 <= i < |init| ==> init[i] == gone[i];
      OneVanishes(env, seen, init, ev, s);
    }
  }

  /** Events that were pulled, or whose slot is excluded, are passed over. */
  lemma {:induction false} NoneVanish(env: Env, seen: set<EventKey>, gone: seq<Event>, s: Sync)
    requires forall e :: e in gone ==> EvKey(e) in seen || Excluded(s.st, SlotOf(e.facts))
    ensures VanishAll(env, seen, gone, s) == Done(s)
  {
    if |gone| > 0 {
      var init, last := gone[..|gone| - 1], gone[|gone| - 1];
      assert gone == init + [last];
      assert last in gone;
      NoneVanish(env, seen, init, s);
    }
  }

  /** A sync whose pull comes to `s1` and in which no event vanishes. */
  lemma NoVanishSync(env: Env, st: State, pull: seq<Incoming>, s1: Sync)
    requires env.Valid() && WellFormed(st) && PullAll(env, st.events, pull, Start(env, st)) == Done(s1)
    requires forall k :: k in st.events ==> k in Keys(pull) || Excluded(s1.st, SlotOf(st.events[k].facts))
    ensures SyncEvents(env, st, pull) == Done((s1.st, s1.res))
  {
    BaseListed(env, st);
    hide PullAll, Excluded, WellFormed;
    NoneVanish(env, Keys(pull), BaseEvents(env, st.events), s1);
  }

  /** A sync whose pull comes to `s1` and in which one event vanishes. */
  lemma OneVanishSync(env: Env, st: State, pull: seq<Incoming>, s1: Sync, k: EventKey)
    requires env.Valid() && WellFormed(st) && PullAll(env, st.events, pull, Start(env, st)) == Done(s1)
    requires k in st.events && k !in Keys(pull) && forall j :: j in st.events && j != k ==> j in Keys(pull)
    ensures var o := VanishOne(env, Keys(pull), st.events[k], s1);
            SyncEvents(env, st, pull) == if o.Done? then Done((o.value.st, o.value.res)) else Failed
  {
    BaseListed(env, st);
    assert EvKey(st.events[k]) == k;
    hide PullAll, VanishOne, WellFormed;
    OneVanishes(env, Keys(pull), BaseEvents(env, st.events), st.events[k], s1);
  }

  // ── the two events ──────────────────────────────────────────────────

  const KEY2 := EventKey(2, "e1", "")
  const IDENTITY2 := Identity("google", 2, "e1", "")
  const CATEGORY_OF_SLOT := OverlayKey(SLOT, CategoryKind)
  const STATUS_OF_SLOT := OverlayKey(SLOT, StatusKind)

  const TRIP_FACTS := Facts("google", "e1", "", "", "trip", "", true, None, None, "2026-01-01", "2026-01-01", "")
  /** The all-day event of the second calendar. */
  const TRIP := Incoming(2, TRIP_FACTS, Accepted)

  /** The first calendar's event, in one of several versions without times. */
  function Offsite(version: string, status: Status): Incoming {
    Incoming(1, FactsOf("offsite", None).(rest := version), status)
  }

  /** The same event as first pulled with times. */
  const TIMED := Incoming(1, FactsOf("offsite", HOUR), Accepted)

  function Item(detail: Detail): ReviewKey {
    ReviewKey(DeletedCategorized, IDENTITY, detail)
  }

  function Asked(title: string, k: EventKey): Review {
    Review(k, Titled(title), Open, NoAction)
  }

  function Stored(inc: Incoming): Event {
    Event(inc.calendar, inc.facts, inc.status, true)
  }

  // ── the steps of the runs ───────────────────────────────────────────

  lemma NoRows(env: Env)
    requires env.Valid()
    ensures env.listRows(map[]) == []
  {
    var rows := env.listRows(map[]);
    assert Lists(rows, map[]);
    if |rows| > 0 { SomeRow(rows); }
  }

  lemma SomeRow(rows: seq<Row>)
    requires |rows| > 0
    ensures exists r :: r in rows
  {
    assert rows[0] in rows;
  }

  /** The first pull of the first calendar's event. */
  lemma FirstPull(env: Env, inc: Incoming)
    requires TwoDefaults(env) && inc == Offsite(inc.facts.rest, Accepted)
    ensures Next(env, EMPTY, Pull([inc])) == WithNew(EMPTY, inc, 7)
  {
    hide WellFormed, PullOne, PullAll, VanishAll;
    var s0 := Start(env, EMPTY);
    EmptyWellFormed();
    OnePull(env, map[], inc, s0);
    NewPulled(env, map[], inc, s0, 7);
    NoVanishSync(env, EMPTY, [inc], PullOne(env, map[], inc, s0).value);
  }

  /** It vanishes while it has a category: the user is asked. */
  lemma Vanishes(env: Env, st: State)
    requires env.Valid() && WellFormed(st) && st.events.Keys == {KEY} && SlotOf(st.events[KEY].facts) == SLOT
    requires IdentityOf(st.events[KEY].calendar, st.events[KEY].facts) == IDENTITY
    requires Categorized(st, SLOT) && !Excluded(st, SLOT) && Item(WasDeleted) !in st.reviews
    ensures Next(env, st, Pull([])) == st.(reviews := st.reviews[Item(WasDeleted) := Asked(st.events[KEY].facts.title, KEY)])
  {
    hide WellFormed, Categorized, Excluded;
    var s0 := Start(env, st);
    assert PullAll(env, st.events, [], s0) == Done(s0);
    OneVanishSync(env, st, [], s0, KEY);
  }

  /** The second calendar's event arrives, in the slot of the first. */
  lemma TripArrives(env: Env, st: State, pull: seq<Incoming>, mid: Sync)
    requires TwoDefaults(env) && WellFormed(st) && KEY2 !in st.events && st.events.Keys == {KEY}
    requires (pull == [TRIP] && mid == Start(env, st) && Excluded(st, SLOT) && SlotOf(st.events[KEY].facts) == SLOT)
             || (|pull| == 2 && pull[1] == TRIP && IncKey(pull[0]) == KEY && PullOne(env, st.events, pull[0], Start(env, st)) == Done(mid))
    requires !Categorized(mid.st, SLOT) && KEY2 !in mid.st.events && AllDayKey(TRIP) !in mid.st.reviews
    ensures Next(env, st, Pull(pull)) == WithNew(mid.st, TRIP, 8)
  {
    hide WellFormed, Categorized, Excluded, PullOne, PullAll, VanishAll, WithNew;
    var s0 := Start(env, st);
    NewPulled(env, st.events, TRIP, mid, 8);
    var s1 := PullOne(env, st.events, TRIP, mid).value;
    if pull == [TRIP] {
      OnePull(env, st.events, TRIP, s0);
      StatusKept(st, s1.st);
    } else {
      TwoPulls(env, st.events, pull[0], TRIP, s0, mid);
      assert pull == [pull[0], TRIP];
    }
    assert forall k :: k in st.events ==> k in Keys(pull) || Excluded(s1.st, SlotOf(st.events[k].facts)) by {
      if pull != [TRIP] { assert pull[0] in pull; }
    }
    NoVanishSync(env, st, pull, s1);
  }

  lemma StatusKept(st: State, st': State)
    requires st' == WithNew(st, TRIP, 8) && Excluded(st, SLOT)
    ensures Excluded(st', SLOT)
  {
  }

  /** Including the all-day event lifts the exclusion of the slot. */
  lemma TripIncluded(env: Env, st: State)
    requires env.Valid() && AllDayKey(TRIP) in st.reviews && st.reviews[AllDayKey(TRIP)] == Asked("trip", KEY2)
    requires KEY2 in st.events && st.events[KEY2] == Stored(TRIP) && Excluded(st, SLOT)
    ensures Next(env, st, Resolve(AllDayKey(TRIP), Include))
         == st.(overlays := st.overlays - {STATUS_OF_SLOT},
                reviews := st.reviews[AllDayKey(TRIP) := Asked("trip", KEY2).(status := Resolved, action := Include)])
  {
  }

  /** Dropping the entry of an event without rows clears its category and excludes its slot. */
  lemma Dropped(env: Env, st: State)
    requires env.Valid() && st.entries == map[] && KEY in st.events && SlotOf(st.events[KEY].facts) == SLOT
    ensures ApplyDeleted(env, st, KEY, DropEntry)
         == Done(st.(overlays := (st.overlays - {CATEGORY_OF_SLOT})[STATUS_OF_SLOT := Overlay(None, ExcludedNote)]))
  {
    NoRows(env);
    var id := IdentityOf(st.events[KEY].calendar, st.events[KEY].facts);
    assert StaleDrafts([], id) == {};
    assert Attest(map[], {}, Dismissed) == map[];
    assert DismissDraftsOf(env, st, id) == Done(st);
  }

  lemma DropDecided(env: Env, st: State, detail: Detail)
    requires env.Valid() && st.entries == map[] && KEY in st.events && SlotOf(st.events[KEY].facts) == SLOT
    requires Item(detail) in st.reviews && st.reviews[Item(detail)] == Asked("offsite", KEY)
    ensures Next(env, st, Resolve(Item(detail), DropEntry))
         == st.(overlays := (st.overlays - {CATEGORY_OF_SLOT})[STATUS_OF_SLOT := Overlay(None, ExcludedNote)],
                reviews := st.reviews[Item(detail) := Asked("offsite", KEY).(status := Resolved, action := DropEntry)])
  {
    hide ApplyDeleted;
    Dropped(env, st);
  }

  ghost function Always(env: Env, n: nat): seq<Env> {
    seq(n, _ => env)
  }

  /** The steps lead from the empty ledger through the states, as long as these are well-formed. */
  ghost predicate Leads(env: Env, states: seq<State>, steps: seq<Step>)
    requires env.Valid()
  {
    && |states| == |steps| + 1 && states[0] == EMPTY
    && (forall i :: 0 <= i < |steps| && WellFormed(states[i]) ==> states[i + 1] == Next(env, states[i], steps[i]))
  }

  lemma {:induction false} StaysWellFormed(env: Env, states: seq<State>, steps: seq<Step>, n: nat)
    requires env.Valid() && Leads(env, states, steps) && n < |states|
    ensures WellFormed(states[n])
  {
    hide WellFormed, Next, StepEffect;
    if n == 0 {
      EmptyWellFormed();
    } else {
      StaysWellFormed(env, states, steps, n - 1);
      EveryStep(env, states[n - 1], steps[n - 1]);
      EffectWellFormed(states[n - 1], Next(env, states[n - 1], steps[n - 1]), steps[n - 1]);
      assert states[n - 1 + 1] == Next(env, states[n - 1], steps[n - 1]);
    }
  }

  lemma EffectWellFormed(st: State, st': State, step: Step)
    requires StepEffect(st, st', step)
    ensures WellFormed(st')
  {
  }

  lemma LeadsRun(env: Env, states: seq<State>, steps: seq<Step>)
    requires env.Valid() && Leads(env, states, steps)
    ensures Run(states, Always(env, |steps|), steps) && WellFormed(states[|states| - 1])
  {
    hide WellFormed, Next;
    forall i | 0 <= i < |states| ensures WellFormed(states[i]) { StaysWellFormed(env, states, steps, i); }
  }

  // ── a decision to drop, replayed for the deleted event ──────────────

  function Defaulted(category: int): map<OverlayKey, Overlay> {
    map[CATEGORY_OF_SLOT := CategoryOverlay(category)]
  }

  function ExcludedSlot(): map<OverlayKey, Overlay> {
    map[STATUS_OF_SLOT := Overlay(None, ExcludedNote)]
  }

  function Decided(detail: Detail, action: Action): map<ReviewKey, Review> {
    map[Item(detail) := Asked("offsite", KEY).(status := Resolved, action := action)]
  }

  const TRIP_ASKED := Asked("trip", KEY2)
  const TRIP_INCLUDED := Asked("trip", KEY2).(status := Resolved, action := Include)

  function DropSteps(): seq<Step> {
    [Pull([Offsite("a", Accepted)]), Pull([]), Resolve(Item(WasDeleted), DropEntry), Pull([TRIP]),
     Resolve(AllDayKey(TRIP), Include), Pull([TRIP])]
  }

  function DropStates(): seq<State> {
    var first := map[KEY := Stored(Offsite("a", Accepted))];
    var both := first[KEY2 := Stored(TRIP)];
    var closed := Decided(WasDeleted, DropEntry);
    [EMPTY,
     State(first, Defaulted(7), map[], 0, map[]),
     State(first, Defaulted(7), map[], 0, map[Item(WasDeleted) := Asked("offsite", KEY)]),
     State(first, ExcludedSlot(), map[], 0, closed),
     State(both, ExcludedSlot()[CATEGORY_OF_SLOT := CategoryOverlay(8)], map[], 0, closed[AllDayKey(TRIP) := TRIP_ASKED]),
     State(both, Defaulted(8), map[], 0, closed[AllDayKey(TRIP) := TRIP_INCLUDED]),
     State(both, ExcludedSlot(), map[], 0, closed[AllDayKey(TRIP) := TRIP_INCLUDED])]
  }

  lemma DropReplayed(env: Env, seen: set<EventKey>, s: Sync)
    requires env.Valid() && s.st == DropStates()[5] && KEY !in seen
    ensures var o := VanishOne(env, seen, Stored(Offsite("a", Accepted)), s); o.Done? && o.value.st == DropStates()[6]
  {
    hide ApplyDeleted;
    Dropped(env, s.st);
    assert (Defaulted(8) - {CATEGORY_OF_SLOT})[STATUS_OF_SLOT := Overlay(None, ExcludedNote)] == ExcludedSlot();
  }

  /** The last sync of the run: the deleted event vanishes again, and its recorded drop is replayed. */
  lemma DropAgain(env: Env, st: State)
    requires TwoDefaults(env) && WellFormed(st) && st == DropStates()[5]
    ensures Next(env, st, Pull([TRIP])) == DropStates()[6]
  {
    hide WellFormed, PullOne, VanishOne;
    var s0 := Start(env, st);
    OnePull(env, st.events, TRIP, s0);
    SamePulled(env, st.events, TRIP, s0);
    var s1 := PullOne(env, st.events, TRIP, s0).value;
    OneVanishSync(env, st, [TRIP], s1, KEY);
    DropReplayed(env, Keys([TRIP]), s1);
  }

  lemma DropBegins(env: Env, i: nat)
    requires TwoDefaults(env) && i < 3 && WellFormed(DropStates()[i])
    ensures Next(env, DropStates()[i], DropSteps()[i]) == DropStates()[i + 1]
  {
    hide WellFormed, Next;
    var st := DropStates()[i];
    match i
    case 0 => FirstPull(env, Offsite("a", Accepted));
    case 1 => Vanishes(env, st);
    case _ => DropDecided(env, st, WasDeleted);
  }

  lemma DropEnds(env: Env, i: nat)
    requires TwoDefaults(env) && 3 <= i < 6 && WellFormed(DropStates()[i])
    ensures Next(env, DropStates()[i], DropSteps()[i]) == DropStates()[i + 1]
  {
    hide WellFormed, Next;
    var st := DropStates()[i];
    match i
    case 3 => TripArrives(env, st, [TRIP], Start(env, st));
    case 4 => TripIncluded(env, st);
    case _ => DropAgain(env, st);
  }

  /** A run from the empty ledger that replays a recorded drop: the deleted event of one calendar vanishes
      again after the other calendar's event has brought a category to their slot, and the replay clears
      that category and hides both events. */
  lemma DropIsReplayed(env: Env)
    requires TwoDefaults(env)
    ensures var states := DropStates();
            && Run(states, Always(env, 6), DropSteps()) && states[0] == EMPTY && DropSteps()[5] == Pull([TRIP])
            && Categorized(states[5], SLOT) && !Excluded(states[5], SLOT)
            && !Categorized(states[6], SLOT) && Excluded(states[6], SLOT)
  {
    hide WellFormed, Run, Next;
    forall i | 0 <= i < 6 && WellFormed(DropStates()[i]) ensures DropStates()[i + 1] == Next(env, DropStates()[i], DropSteps()[i]) {
      if i < 3 { DropBegins(env, i); } else { DropEnds(env, i); }
    }
    LeadsRun(env, DropStates(), DropSteps());
  }

  // ── a decision to drop, replayed for the declined event ─────────────

  function DeclineSteps(): seq<Step> {
    [Pull([Offsite("a", Accepted)]), Pull([Offsite("b", Declined)]), Resolve(Item(WasDeclined), DropEntry),
     Pull([Offsite("b", Declined), TRIP]), Pull([Offsite("c", Declined), TRIP])]
  }

  function DeclineStates(): seq<State> {
    var (a, b, c) := (Stored(Offsite("a", Accepted)), Stored(Offsite("b", Declined)), Stored(Offsite("c", Declined)));
    var closed := Decided(WasDeclined, DropEntry);
    [EMPTY,
     State(map[KEY := a], Defaulted(7), map[], 0, map[]),
     State(map[KEY := b], Defaulted(7), map[], 0, map[Item(WasDeclined) := Asked("offsite", KEY)]),
     State(map[KEY := b], ExcludedSlot(), map[], 0, closed),
     State(map[KEY := b, KEY2 := Stored(TRIP)], ExcludedSlot()[CATEGORY_OF_SLOT := CategoryOverlay(8)], map[], 0,
           closed[AllDayKey(TRIP) := TRIP_ASKED]),
     State(map[KEY := c, KEY2 := Stored(TRIP)], ExcludedSlot(), map[], 0, closed[AllDayKey(TRIP) := TRIP_ASKED])]
  }

  /** A categorized event without rows is declined: the user is asked, or a recorded drop is replayed. */
  lemma DeclinedPulled(env: Env, base: map<EventKey, Event>, inc: Incoming, s: Sync)
    requires env.Valid() && inc == Offsite(inc.facts.rest, Declined) && KEY in base && base[KEY].facts.title == "offsite"
    requires base[KEY].facts != inc.facts && s.rows == [] && s.st.entries == map[] && Categorized(s.st, SLOT)
    ensures var st0 := UpsertEvent(s.st, inc);
            var rk := Item(WasDeclined);
            var o := PullOne(env, base, inc, s);
            && (rk !in s.st.reviews ==>
                  o.Done? && o.value.rows == s.rows && o.value.st == st0.(reviews := st0.reviews[rk := Asked("offsite", KEY)]))
            && (rk in s.st.reviews && s.st.reviews[rk].status != Open && s.st.reviews[rk].action == DropEntry ==>
                  o.Done? && o.value.rows == s.rows
                  && o.value.st == st0.(overlays := (st0.overlays - {CATEGORY_OF_SLOT})[STATUS_OF_SLOT := Overlay(None, ExcludedNote)]))
  {
    hide ApplyDeleted;
    var st0 := UpsertEvent(s.st, inc);
    Dropped(env, st0);
    assert DriftedIds([], IDENTITY, Hash(inc.facts)) == [];
    assert Categorized(st0, SLOT) && !LinkedAs([], IDENTITY, Draft);
  }

  lemma Declines(env: Env, st: State)
    requires TwoDefaults(env) && WellFormed(st) && st == DeclineStates()[1]
    ensures Next(env, st, Pull([Offsite("b", Declined)])) == DeclineStates()[2]
  {
    hide WellFormed, PullOne, UpsertEvent;
    var (inc, s0) := (Offsite("b", Declined), Start(env, st));
    NoRows(env);
    DeclinedPulled(env, st.events, inc, s0);
    OnePull(env, st.events, inc, s0);
    var s1 := PullOne(env, st.events, inc, s0).value;
    assert inc in [inc];
    NoVanishSync(env, st, [inc], s1);
    UpsertIs(st, inc);
    assert DeclineStates()[2].reviews == st.reviews[Item(WasDeclined) := Asked("offsite", KEY)];
  }

  lemma UpsertIs(st: State, inc: Incoming)
    requires IncKey(inc) in st.events && st.events[IncKey(inc)].active
    ensures UpsertEvent(st, inc) == st.(events := st.events[IncKey(inc) := Stored(inc)])
  {
  }

  lemma DeclinedTripArrives(env: Env, st: State)
    requires TwoDefaults(env) && WellFormed(st) && st == DeclineStates()[3]
    ensures Next(env, st, Pull([Offsite("b", Declined), TRIP])) == DeclineStates()[4]
  {
    hide WellFormed, PullOne, Next;
    var (inc, s0) := (Offsite("b", Declined), Start(env, st));
    SamePulled(env, st.events, inc, s0);
    TripArrives(env, st, [inc, TRIP], s0.(res := s0.res.(kept := s0.res.kept + 1)));
  }

  /** The pull loop of the last sync: the decline is replayed, the other event is as before. */
  lemma DeclineReplayed(env: Env, st: State)
    requires TwoDefaults(env) && st == DeclineStates()[4]
    ensures var pull := [Offsite("c", Declined), TRIP];
            var o := PullAll(env, st.events, pull, Start(env, st));
            o.Done? && o.value.st == DeclineStates()[5] && Keys(pull) == {KEY, KEY2}
  {
    hide PullOne, UpsertEvent;
    var (inc, s0) := (Offsite("c", Declined), Start(env, st));
    NoRows(env);
    DeclinedPulled(env, st.events, inc, s0);
    UpsertIs(st, inc);
    var mid := PullOne(env, st.events, inc, s0).value;
    SamePulled(env, st.events, TRIP, mid);
    TwoPulls(env, st.events, inc, TRIP, s0, mid);
    assert inc in [inc, TRIP] && TRIP in [inc, TRIP];
    assert (ExcludedSlot()[CATEGORY_OF_SLOT := CategoryOverlay(8)] - {CATEGORY_OF_SLOT})[STATUS_OF_SLOT := Overlay(None, ExcludedNote)] == ExcludedSlot();
  }

  lemma DeclinesAgain(env: Env, st: State)
    requires TwoDefaults(env) && WellFormed(st) && st == DeclineStates()[4]
    ensures Next(env, st, Pull([Offsite("c", Declined), TRIP])) == DeclineStates()[5]
  {
    hide WellFormed, PullAll, Keys;
    var pull := [Offsite("c", Declined), TRIP];
    DeclineReplayed(env, st);
    NoVanishSync(env, st, pull, PullAll(env, st.events, pull, Start(env, st)).value);
  }

  lemma DeclineStep(env: Env, i: nat)
    requires TwoDefaults(env) && i < 5 && WellFormed(DeclineStates()[i])
    ensures Next(env, DeclineStates()[i], DeclineSteps()[i]) == DeclineStates()[i + 1]
  {
    hide WellFormed, Next;
    var st := DeclineStates()[i];
    match i
    case 0 => FirstPull(env, Offsite("a", Accepted));
    case 1 => Declines(env, st);
    case 2 => DropDecided(env, st, WasDeclined);
    case 3 => DeclinedTripArrives(env, st);
    case _ => DeclinesAgain(env, st);
  }

  /** A run from the empty ledger that replays a recorded drop of a declined event: declined again after the
      other calendar's event has brought a category to their slot, it takes that category away. */
  lemma DeclineIsReplayed(env: Env)
    requires TwoDefaults(env)
    ensures var states := DeclineStates();
            && Run(states, Always(env, 5), DeclineSteps()) && states[0] == EMPTY
            && DeclineSteps()[4] == Pull([Offsite("c", Declined), TRIP])
            && Categorized(states[4], SLOT) && !Categorized(states[5], SLOT)
  {
    hide WellFormed, Run, Next;
    forall i | 0 <= i < 5 && WellFormed(DeclineStates()[i])
      ensures DeclineStates()[i + 1] == Next(env, DeclineStates()[i], DeclineSteps()[i])
    {
      DeclineStep(env, i);
    }
    LeadsRun(env, DeclineStates(), DeclineSteps());
  }

  // ── a decision to keep, whose replay fails ──────────────────────────

  function KeepSteps(): seq<Step> {
    [Pull([TIMED]), Pull([]), Resolve(Item(WasDeleted), KeepEntry), Pull([Offsite("a", Accepted), TRIP]),
     Resolve(AllDayKey(TRIP), Include)]
  }

  function Draft7(env: Env): TimeEntry {
    ProposalOf(env, TIMED, Some(7))
  }

  /** The confirmed copy of the deleted event. */
  function Copy7(env: Env): TimeEntry {
    Draft7(env).(attestation := Confirmed, source := NoSource, revision := NoRevision, how := NoMethod)
  }

  function KeptRows(env: Env): map<nat, TimeEntry> {
    map[0 := Draft7(env).(attestation := Dismissed), 1 := Copy7(env)]
  }

  function KeepStates(env: Env): seq<State> {
    var timed := map[KEY := Stored(TIMED)];
    var both := map[KEY := Stored(Offsite("a", Accepted)), KEY2 := Stored(TRIP)];
    var closed := Decided(WasDeleted, KeepEntry);
    [EMPTY,
     State(timed, Defaulted(7), map[0 := Draft7(env)], 1, map[]),
     State(timed, Defaulted(7), map[0 := Draft7(env)], 1, map[Item(WasDeleted) := Asked("offsite", KEY)]),
     State(timed, ExcludedSlot(), KeptRows(env), 2, closed),
     State(both, ExcludedSlot()[CATEGORY_OF_SLOT := CategoryOverlay(8)], KeptRows(env), 2, closed[AllDayKey(TRIP) := TRIP_ASKED]),
     State(both, Defaulted(8), KeptRows(env), 2, closed[AllDayKey(TRIP) := TRIP_INCLUDED])]
  }

  lemma TimedPulled(env: Env)
    requires TwoDefaults(env)
    ensures var o := PullOne(env, map[], TIMED, Start(env, EMPTY)); o.Done? && o.value.st == KeepStates(env)[1]
  {
    NoRows(env);
    var st0 := UpsertEvent(EMPTY, TIMED);
    assert GapParts(Interval(0, 3600), []) == [];
    assert OnNewEvent(env, st0, TIMED, []) == Done((st0, 0, false));
    assert MatchKeyOf(env, TIMED.facts) !in env.memory;
    NewCategory(env, st0, TIMED, 7);
    TimedProposed(env, AutoCategorize(env, st0, TIMED));
  }

  lemma TimedProposed(env: Env, st: State)
    requires TwoDefaults(env) && st == State(map[KEY := Stored(TIMED)], Defaulted(7), map[], 0, map[])
    ensures Materialize(env, st, TIMED, [], false) == Done((KeepStates(env)[1], [Row(0, Draft7(env))]))
  {
    assert EffectiveCategory(st, SLOT) == Some(7) && !Excluded(st, SLOT);
    assert CreateEntry(st, Draft7(env)) == KeepStates(env)[1];
    assert [] + [Row(0, Draft7(env))] == [Row(0, Draft7(env))];
  }

  lemma FirstTimedPull(env: Env)
    requires TwoDefaults(env)
    ensures Next(env, EMPTY, Pull([TIMED])) == KeepStates(env)[1]
  {
    hide WellFormed, PullOne, KeepStates;
    var s0 := Start(env, EMPTY);
    EmptyWellFormed();
    TimedPulled(env);
    OnePull(env, map[], TIMED, s0);
    NoVanishSync(env, EMPTY, [TIMED], PullOne(env, map[], TIMED, s0).value);
  }

  lemma OneRow(env: Env, te: TimeEntry)
    requires env.Valid()
    ensures forall r :: r in env.listRows(map[0 := te]) <==> r == Row(0, te)
  {
    var (rows, entries) := (env.listRows(map[0 := te]), map[0 := te]);
    assert Lists(rows, entries);
    assert 0 in entries;
    forall r | r in rows ensures r == Row(0, te) { assert r.id in entries && r == Row(r.id, r.te); }
  }

  lemma OneStale(env: Env, te: TimeEntry)
    requires env.Valid() && Linked(te, IDENTITY) && te.attestation == Draft
    ensures StaleDrafts(env.listRows(map[0 := te]), IDENTITY) == {0}
  {
    OneRow(env, te);
    assert Row(0, te) in env.listRows(map[0 := te]);
  }

  lemma Kept(env: Env, st: State)
    requires TwoDefaults(env) && st == KeepStates(env)[2]
    ensures ApplyDeleted(env, st, KEY, KeepEntry) == Done(KeepStates(env)[3].(reviews := st.reviews))
  {
    OneStale(env, Draft7(env));
    var st1 := st.(entries := map[0 := Draft7(env).(attestation := Dismissed)]);
    assert Attest(st.entries, {0}, Dismissed) == st1.entries;
    assert DismissDraftsOf(env, st, IDENTITY) == Done(st1);
    assert st1.entries[1 := Copy7(env)] == KeptRows(env);
    assert EffectiveCategory(st1, SLOT) == Some(7);
    assert ConvertToManual(env, st1, st.events[KEY]) == Done(st1.(entries := KeptRows(env), nextEntry := 2, overlays := map[]));
    assert (map[])[STATUS_OF_SLOT := Overlay(None, ExcludedNote)] == ExcludedSlot();
  }

  lemma KeepDecided(env: Env, st: State)
    requires TwoDefaults(env) && st == KeepStates(env)[2]
    ensures Next(env, st, Resolve(Item(WasDeleted), KeepEntry)) == KeepStates(env)[3]
  {
    hide ApplyDeleted;
    Kept(env, st);
    assert st.reviews[Item(WasDeleted) := Asked("offsite", KEY).(status := Resolved, action := KeepEntry)] == Decided(WasDeleted, KeepEntry);
  }

  lemma NothingLags(env: Env, st: State, inc: Incoming)
    requires env.Valid() && forall x :: x in st.entries ==> !Lags(st.entries[x], inc)
    ensures DriftedIds(env.listRows(st.entries), IncIdentity(inc), Hash(inc.facts)) == []
  {
    var ids := DriftedIds(env.listRows(st.entries), IncIdentity(inc), Hash(inc.facts));
    if |ids| > 0 { LaggingIds(env, st, inc, ids[0]); }
  }

  lemma TimesLost(env: Env, st: State)
    requires env.Valid() && st.events == map[KEY := Stored(TIMED)] && !Categorized(st, SLOT) && st.entries == KeptRows(env)
    ensures var inc := Offsite("a", Accepted);
            var o := PullOne(env, st.events, inc, Start(env, st));
            o.Done? && o.value.st == st.(events := map[KEY := Stored(inc)]) && o.value.rows == env.listRows(st.entries)
  {
    hide DriftedIds, UpsertEvent, KeptRows, PullOne, Categorized;
    var inc := Offsite("a", Accepted);
    RowsUpToDate(env, inc);
    NothingLags(env, st, inc);
    PlainChange(env, st.events, inc, Start(env, st));
    UpsertIs(st, inc);
    assert map[KEY := Stored(TIMED)][KEY := Stored(inc)] == map[KEY := Stored(inc)];
  }

  lemma RowsUpToDate(env: Env, inc: Incoming)
    ensures forall x :: x in KeptRows(env) ==> !Lags(KeptRows(env)[x], inc)
  {
  }

  lemma UntimedTripArrives(env: Env, st: State)
    requires TwoDefaults(env) && WellFormed(st) && st == KeepStates(env)[3]
    ensures Next(env, st, Pull([Offsite("a", Accepted), TRIP])) == KeepStates(env)[4]
  {
    hide WellFormed, PullOne, Next, KeptRows;
    var inc := Offsite("a", Accepted);
    TimesLost(env, st);
    TripArrives(env, st, [inc, TRIP], PullOne(env, st.events, inc, Start(env, st)).value);
  }

  lemma KeepBegins(env: Env, i: nat)
    requires TwoDefaults(env) && i < 3 && WellFormed(KeepStates(env)[i])
    ensures Next(env, KeepStates(env)[i], KeepSteps()[i]) == KeepStates(env)[i + 1]
  {
    hide WellFormed, Next, Draft7, Copy7, KeptRows;
    var st := KeepStates(env)[i];
    match i
    case 0 => FirstTimedPull(env);
    case 1 => Vanishes(env, st);
    case _ => KeepDecided(env, st);
  }

  lemma KeepEnds(env: Env, i: nat)
    requires TwoDefaults(env) && 3 <= i < 5 && WellFormed(KeepStates(env)[i])
    ensures Next(env, KeepStates(env)[i], KeepSteps()[i]) == KeepStates(env)[i + 1]
  {
    hide WellFormed, Next, Draft7, Copy7, KeptRows;
    var st := KeepStates(env)[i];
    match i
    case 3 => UntimedTripArrives(env, st);
    case _ => TripIncluded(env, st);
  }

  lemma LastPullFails(env: Env, st: State)
    requires TwoDefaults(env) && WellFormed(st) && st == KeepStates(env)[5]
    ensures SyncEvents(env, st, [TRIP]).Failed?
  {
    hide WellFormed, ApplyDeleted, Draft7, Copy7;
    var s0 := Start(env, st);
    OnePull(env, st.events, TRIP, s0);
    SamePulled(env, st.events, TRIP, s0);
    OneVanishSync(env, st, [TRIP], PullOne(env, st.events, TRIP, s0).value, KEY);
    KeepFails(env, st, KEY);
  }

  /** A run from the empty ledger after which a sync fails: the deleted event lost its times after its entry
      was kept, the other calendar's event has brought a category to their slot, and the recorded keep
      cannot be replayed. */
  lemma KeepReplayFails(env: Env)
    requires TwoDefaults(env)
    ensures var states := KeepStates(env);
            Run(states, Always(env, 5), KeepSteps()) && states[0] == EMPTY && SyncEvents(env, states[5], [TRIP]).Failed?
  {
    hide WellFormed, Run, Next, SyncEvents, Draft7, Copy7;
    forall i | 0 <= i < 5 && WellFormed(KeepStates(env)[i]) ensures KeepStates(env)[i + 1] == Next(env, KeepStates(env)[i], KeepSteps()[i]) {
      if i < 3 { KeepBegins(env, i); } else { KeepEnds(env, i); }
    }
    LeadsRun(env, KeepStates(env), KeepSteps());
    LastPullFails(env, KeepStates(env)[5]);
  }

  // ── a refused confirmation that loses a row ─────────────────────────

  function LossSteps(m: int): seq<Step> {
    [Pull([TIMED]), Create(Edit(Interval(m, m + 30), 0, None, "call", DEFAULT_ALLOCATION), false), Confirm(0, NoPolicy, KeepMine)]
  }

  ghost function LossStates(env: Env, m: int): seq<State>
    requires env.Valid()
  {
    var st1 := KeepStates(env)[1];
    var st2 := Next(env, st1, LossSteps(m)[1]);
    [EMPTY, st1, st2, Next(env, st2, LossSteps(m)[2])]
  }

  /** A run from the empty ledger in which the draft of an overnight event, confirmed with keep-mine and no
      overnight policy, is refused and takes a confirmed row with it. */
  lemma RefusalLosesRow(env: Env, m: int)
    requires TwoDefaults(env) && 0 < m < 3600 && env.zoneOf(env.localDay(0)).Midnight(m)
    ensures var states := LossStates(env, m);
            && Run(states, Always(env, 3), LossSteps(m)) && states[0] == EMPTY
            && !ConfirmEntry(env, states[2], 0, NoPolicy, KeepMine).ok
            && 1 in states[2].entries && states[2].entries[1].attestation == Confirmed && 1 !in states[3].entries
  {
    hide WellFormed, Run, ConfirmEntry, Leads;
    LossLeads(env, m);
    LeadsRun(env, LossStates(env, m), LossSteps(m));
    StaysWellFormed(env, LossStates(env, m), LossSteps(m), 2);
    LossRows(env, m);
    LossRefused(env, LossStates(env, m)[2], m);
  }

  lemma LossRefused(env: Env, st: State, m: int)
    requires TwoDefaults(env) && WellFormed(st) && 0 < m < 3600 && env.zoneOf(env.localDay(0)).Midnight(m)
    requires st.entries.Keys == {0, 1} && st.entries[0] == Draft7(env)
    requires st.entries[1].span == Interval(m, m + 30) && st.entries[1].attestation == Confirmed
    ensures var r := ConfirmEntry(env, st, 0, NoPolicy, KeepMine); !r.ok && 1 !in r.st.entries
  {
    hide WellFormed, ConfirmEntry;
    assert Clashes(Row(1, st.entries[1]), 0, st.entries[0].span);
    assert ReachesMidnight(env.zoneOf(env.localDay(0)), st.entries[0].span);
    ConfirmAcceptedIff(env, st, 0, NoPolicy, KeepMine);
    RefusedConfirm(env, st, 0, NoPolicy, KeepMine);
  }

  lemma LossLeads(env: Env, m: int)
    requires TwoDefaults(env)
    ensures Leads(env, LossStates(env, m), LossSteps(m))
  {
    hide WellFormed, Next;
    FirstTimedPull(env);
  }

  lemma LossRows(env: Env, m: int)
    requires env.Valid()
    ensures var st := LossStates(env, m)[2];
            && st.entries.Keys == {0, 1} && st.entries[0] == Draft7(env)
            && st.entries[1].span == Interval(m, m + 30) && st.entries[1].attestation == Confirmed
  {
  }

  /** The run exists: in a zone whose days begin half an hour into the event, the refused confirmation loses
      its row. */
  lemma RefusalLosesRowSomewhere()
    ensures var env := TwoCalendars(1800);
            && TwoDefaults(env) && Run(LossStates(env, 1800), Always(env, 3), LossSteps(1800))
            && 1 in LossStates(env, 1800)[2].entries && 1 !in LossStates(env, 1800)[3].entries
  {
    hide TwoDefaults, Run, LossStates, TwoCalendars;
    TwoDefaultsExist(1800);
    ValidDefaults(TwoCalendars(1800));
    RefusalLosesRow(TwoCalendars(1800), 1800);
  }

  lemma ValidDefaults(env: Env)
    requires TwoDefaults(env)
    ensures env.Valid()
  {
  }
}
