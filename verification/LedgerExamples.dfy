/** An environment that meets every assumption on environments, and concrete ledgers on which a sync does
    what the general results say it may. */
module LedgerExamples {
  import opened Wrappers
  import opened Intervals
  import opened Cutting
  import opened LedgerTypes
  import opened LedgerSpec
  import opened LedgerSteps
  import opened LedgerDrafts
  import opened LedgerRuns
  import opened LedgerTheorems
  import opened LedgerIdempotence
  import opened LedgerFlags
  import opened LedgerConflicts
  import opened LedgerOutcome

  // ── an environment ──────────────────────────────────────────────────

  function InsertRow(rows: seq<Row>, r: Row): seq<Row> {
    if rows == [] then [r]
    else if Before(r, rows[0]) then [r] + rows
    else [rows[0]] + InsertRow(rows[1..], r)
  }

  lemma {:induction false} InsertedInOrder(rows: seq<Row>, r: Row)
    requires InOrder(rows) && forall q :: q in rows ==> q.id != r.id
    ensures InOrder(InsertRow(rows, r))
    ensures forall q :: q in InsertRow(rows, r) <==> q in rows || q == r
  {
    if rows != [] && !Before(r, rows[0]) {
      assert rows == [rows[0]] + rows[1..];
      InsertedInOrder(rows[1..], r);
      var tail := InsertRow(rows[1..], r);
      forall j | 0 <= j < |tail| ensures Before(rows[0], tail[j]) {
        assert tail[j] in tail;
        if tail[j] != r { var i :| 0 <= i < |rows[1..]| && rows[1..][i] == tail[j]; }
      }
    }
  }

  /** The rows by work date, then start, then row id. */
  ghost function SortedRows(entries: map<nat, TimeEntry>): seq<Row>
    decreases entries.Keys
  {
    if entries == map[] then []
    else
      var id :| id in entries;
      InsertRow(SortedRows(entries - {id}), Row(id, entries[id]))
  }

  lemma {:induction false} SortedRowsList(entries: map<nat, TimeEntry>)
    ensures Lists(SortedRows(entries), entries)
    decreases entries.Keys
  {
    if entries != map[] {
      var id :| id in entries && SortedRows(entries) == InsertRow(SortedRows(entries - {id}), Row(id, entries[id]));
      var rest := entries - {id};
      SortedRowsList(rest);
      InsertedInOrder(SortedRows(rest), Row(id, entries[id]));
      forall x | x in entries ensures Row(x, entries[x]) in SortedRows(entries) {
        if x != id { assert x in rest && rest[x] == entries[x]; }
      }
    }
  }

  ghost function SomeKeys(events: map<EventKey, Event>): seq<EventKey>
    decreases events.Keys
  {
    if events == map[] then []
    else
      var k :| k in events;
      [k] + SomeKeys(events - {k})
  }

  lemma {:induction false} SomeKeysList(events: map<EventKey, Event>)
    ensures ListsKeys(SomeKeys(events), events)
    decreases events.Keys
  {
    if events != map[] {
      var k :| k in events && SomeKeys(events) == [k] + SomeKeys(events - {k});
      SomeKeysList(events - {k});
    }
  }

  /** The day of an instant, when days of 86400 seconds begin `offset` seconds after those of instant zero. */
  function DayAt(t: int, offset: int): (d: int)
    ensures d * 86400 + offset <= t < (d + 1) * 86400 + offset
  {
    (t - offset) / 86400
  }

  lemma SameDay(t: int, offset: int, d: int)
    requires d * 86400 + offset <= t < (d + 1) * 86400 + offset
    ensures DayAt(t, offset) == d
  {
  }

  lemma DaysAscend(t: int, u: int, offset: int)
    requires t <= u
    ensures DayAt(t, offset) <= DayAt(u, offset)
  {
    hide DayAt;
  }

  /** The start of the day after that of an instant. */
  function NextDay(t: int, offset: int): (m: int)
    ensures t < m && DayAt(m, offset) == DayAt(t, offset) + 1
  {
    SameDay((DayAt(t, offset) + 1) * 86400 + offset, offset, DayAt(t, offset) + 1);
    (DayAt(t, offset) + 1) * 86400 + offset
  }

  lemma UntilNextDay(t: int, u: int, offset: int)
    requires t <= u < NextDay(t, offset)
    ensures DayAt(u, offset) == DayAt(t, offset)
  {
    SameDay(u, offset, DayAt(t, offset));
  }

  /** A zone without offset changes. */
  function PlainZone(offset: int): Zone {
    Zone(t => DayAt(t, offset), t => NextDay(t, offset))
  }

  lemma PlainZoneValid(offset: int)
    ensures PlainZone(offset).Valid() && PlainZone(offset).Midnight(offset)
  {
    hide DayAt, NextDay;
    var z := PlainZone(offset);
    forall t, u {:trigger z.nextMidnight(t), z.day(u)} | t <= u < z.nextMidnight(t) ensures z.day(u) == z.day(t) {
      UntilNextDay(t, u, offset);
    }
    forall t, u {:trigger z.day(t), z.day(u)} | t <= u ensures z.day(t) <= z.day(u) { DaysAscend(t, u, offset); }
    SameDay(offset, offset, 0);
    SameDay(offset - 1, offset, -1);
  }

  ghost function PlainEnv(offset: int): Env {
    Env(true, t => DayAt(t, offset), d => PlainZone(offset), m => SortedRows(m), m => SomeKeys(m), s => s, s => s, map[], map[], inc => None)
  }

  /** The assumptions on environments can be met: listings sorted by date, start and row id, and a zone
      with days of equal length. */
  lemma PlainEnvValid(offset: int)
    ensures PlainEnv(offset).Valid() && PlainEnv(offset).hasTz && forall s :: PlainEnv(offset).normalize(s) == s
  {
    hide DayAt, PlainZone, Lists, ListsKeys, Zone.Valid;
    PlainZoneValid(offset);
    forall m {:trigger PlainEnv(offset).listRows(m)} ensures Lists(PlainEnv(offset).listRows(m), m) { SortedRowsList(m); }
    forall m {:trigger PlainEnv(offset).listKeys(m)} ensures ListsKeys(PlainEnv(offset).listKeys(m), m) { SomeKeysList(m); }
  }

  // ── one event of one calendar ───────────────────────────────────────

  function FactsOf(title: string, times: Option<Interval>): Facts {
    Facts("google", "e1", "", "", title, "", false,
          if times.Some? then Some(times.value.start) else None, if times.Some? then Some(times.value.end) else None, "", "", "")
  }

  const HOUR := Some(Interval(0, 3600))
  const KEY := EventKey(1, "e1", "")
  const IDENTITY := Identity("google", 1, "e1", "")
  const SLOT := Slot("google", "e1", "")

  /** A ledger that stores one event. */
  function OneEvent(f: Facts, status: Status, overlays: map<OverlayKey, Overlay>, entries: map<nat, TimeEntry>, reviews: map<ReviewKey, Review>): State {
    State(map[KEY := Event(1, f, status, true)], overlays, entries, 1, reviews)
  }

  function Categorized7(): map<OverlayKey, Overlay> {
    map[OverlayKey(SLOT, CategoryKind) := CategoryOverlay(7)]
  }

  lemma OnePulled(st: State, inc: Incoming)
    requires st.events.Keys == {KEY} && IncKey(inc) == KEY
    ensures Unshared(st, [inc]) && DistinctPull([inc]) && Keys([inc]) == {KEY}
  {
    assert inc in [inc];
  }

  lemma NonePulled(st: State)
    requires st.events.Keys == {KEY}
    ensures Unshared(st, []) && Keys([]) == {}
  {
  }

  /** An unanswered event that vanishes takes its open item with it: nothing is flagged, yet there is one
      open item less. */
  lemma OpenItemLost(env: Env)
    requires env.Valid() && env.hasTz
    ensures var rk := ReviewKey(TentativeEvent, IDENTITY, StatusIs(Tentative));
            var st := OneEvent(FactsOf("standup", HOUR), Tentative, map[], map[], map[rk := Review(KEY, Titled("standup"), Open, NoAction)]);
            var o := SyncEvents(env, st, []);
            WellFormed(st) && o.Done? && o.value.1.flagged == 0 && OpenItems(st) == {rk} && OpenItems(o.value.0) == {}
  {
    var rk := ReviewKey(TentativeEvent, IDENTITY, StatusIs(Tentative));
    var st := OneEvent(FactsOf("standup", HOUR), Tentative, map[], map[], map[rk := Review(KEY, Titled("standup"), Open, NoAction)]);
    hide SyncEvents, Unshared, Unkeepable, Protected, WellFormed, OpenItems, LostItems;
    NonePulled(st);
    OneOpenItem(st, rk);
    SyncFailsExactly(env, st, []);
    DeletedExactly(env, st, []);
    SyncKeepsRows(env, st, []);
    SyncConservesOpenItems(env, st, []);
    var st' := SyncEvents(env, st, []).value.0;
    NothingNew(env, st);
    AllLost(st, st', rk);
  }

  lemma OneOpenItem(st: State, rk: ReviewKey)
    requires rk == ReviewKey(TentativeEvent, IDENTITY, StatusIs(Tentative))
    requires st == OneEvent(FactsOf("standup", HOUR), Tentative, map[], map[], map[rk := Review(KEY, Titled("standup"), Open, NoAction)])
    ensures WellFormed(st) && !Protected(st, st.events[KEY]) && !Unkeepable(st, st.events[KEY]) && OpenItems(st) == {rk}
  {
    assert !Categorized(st, SLOT);
  }

  lemma AllLost(st: State, st': State, rk: ReviewKey)
    requires OpenItems(st) == {rk} && WellFormed(st') && st'.events == map[]
    ensures OpenItems(st') == {} && LostItems(st, st') == {rk}
  {
  }

  lemma NothingNew(env: Env, st: State)
    requires env.Valid() && WellFormed(st) && SyncEvents(env, st, []).Done?
    ensures var st' := SyncEvents(env, st, []).value.0;
            forall k :: k in st'.events ==> k in st.events && st'.events[k] == st.events[k]
  {
    hide PullsEffect, Proposals, SyncEvents, WellFormed;
    var s1, s2 := SyncRuns(env, st, []);
  }

  /** A categorized event with a live draft alone, declined under another title: its title item is opened. */
  lemma DeclinedStillRetitled(env: Env)
    requires env.Valid() && env.hasTz && env.normalize("standup") != env.normalize("retro")
    ensures var draft := ProposalOf(env, Incoming(1, FactsOf("standup", HOUR), Accepted), Some(7));
            var st := OneEvent(FactsOf("standup", HOUR), Accepted, Categorized7(), map[0 := draft], map[]);
            var o := SyncEvents(env, st, [Incoming(1, FactsOf("retro", HOUR), Declined)]);
            var rk := ReviewKey(TitleChanged, IDENTITY, Titles(env.normalize("standup"), env.normalize("retro")));
            && WellFormed(st) && HasLinked(st, IDENTITY, Draft) && !HasLinked(st, IDENTITY, Confirmed)
            && o.Done? && rk in o.value.0.reviews && o.value.0.reviews[rk].status == Open
  {
    var draft := ProposalOf(env, Incoming(1, FactsOf("standup", HOUR), Accepted), Some(7));
    var st := OneEvent(FactsOf("standup", HOUR), Accepted, Categorized7(), map[0 := draft], map[]);
    var inc := Incoming(1, FactsOf("retro", HOUR), Declined);
    OnePulled(st, inc);
    OneDraft(st, draft);
    assert Categorized(st, SLOT);
    hide SyncEvents, Unshared, DistinctPull, Unkeepable, WellFormed, Categorized, HasLinked, OneEvent, ProposalOf;
    SyncFailsExactly(env, st, [inc]);
    RetitledIsFlagged(env, st, [inc], inc);
  }

  lemma OneDraft(st: State, draft: TimeEntry)
    requires Linked(draft, IDENTITY) && draft.attestation == Draft
    requires st == OneEvent(FactsOf("standup", HOUR), Accepted, Categorized7(), map[0 := draft], map[])
    ensures WellFormed(st) && HasLinked(st, IDENTITY, Draft) && !HasLinked(st, IDENTITY, Confirmed)
  {
    assert Linked(st.entries[0], IDENTITY) && st.entries[0].attestation == Draft;
  }
}
