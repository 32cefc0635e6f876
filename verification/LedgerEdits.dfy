/** The user's edits of rows: when each is accepted, what every field of a row is afterwards, and what undoes it. */
module LedgerEdits {
  import opened Wrappers
  import opened Intervals
  import opened LedgerTypes
  import opened LedgerSpec
  import opened LedgerSteps
  import opened LedgerDrafts
  import opened LedgerTheorems
  import opened LedgerUser
  import opened LedgerHistory

  /** Row `id` is now `te`, and nothing else differs. */
  ghost predicate Only(st: State, st': State, id: nat, te: TimeEntry) {
    && st' == st.(entries := st'.entries) && st'.entries.Keys == st.entries.Keys + {id}
    && st'.entries[id] == te && forall x :: x in st.entries && x != id ==> st'.entries[x] == st.entries[x]
  }

  /** Rejecting is accepted exactly for a draft, which it dismisses. */
  lemma Rejected(st: State, id: nat)
    ensures RejectEntry(st, id).ok <==> id in st.entries && st.entries[id].attestation == Draft
    ensures if RejectEntry(st, id).ok then Only(st, RejectEntry(st, id).st, id, st.entries[id].(attestation := Dismissed))
            else RejectEntry(st, id).st == st
  {
  }

  /** The row as the user edited it: what the edit names is the edit's, the minutes are those of its span, and
      attestation and provenance are as before. */
  predicate EditedTo(te: TimeEntry, e: Edit, te': TimeEntry) {
    && te'.span == e.span && te'.minutes == Minutes(te'.span) && te'.day == e.day && te'.category == e.category
    && te'.description == e.description && te'.allocation == e.allocation
    && te'.attestation == te.attestation && te'.source == te.source && te'.revision == te.revision && te'.how == te.how
  }

  /** Any stored row can be updated and any draft adjusted; both change that row alone. */
  lemma Updated(st: State, id: nat, e: Edit)
    ensures UpdateEntry(st, id, e).ok <==> id in st.entries
    ensures AdjustDraft(st, id, e).ok <==> id in st.entries && st.entries[id].attestation == Draft
    ensures AdjustDraft(st, id, e) == if AdjustDraft(st, id, e).ok then UpdateEntry(st, id, e) else Result(st, false)
    ensures !UpdateEntry(st, id, e).ok ==> UpdateEntry(st, id, e).st == st
    ensures UpdateEntry(st, id, e).ok ==>
              var st' := UpdateEntry(st, id, e).st;
              id in st'.entries && EditedTo(st.entries[id], e, st'.entries[id]) && Only(st, st', id, st'.entries[id])
  {
    hide Minutes;
  }

  /** An update is undone by the one that names the former values, if the row counted its own minutes. */
  lemma UpdateUndone(st: State, id: nat, e: Edit)
    requires id in st.entries && st.entries[id].minutes == Minutes(st.entries[id].span)
    ensures var te := st.entries[id];
            UpdateEntry(UpdateEntry(st, id, e).st, id, Edit(te.span, te.day, te.category, te.description, te.allocation)).st == st
  {
    hide Minutes;
    var te := st.entries[id];
    var st1 := UpdateEntry(st, id, e).st;
    assert st1.entries[id := te] == st.entries;
  }

  /** A manual entry is a confirmed row without a source, on a fresh id; deleting it again leaves the rows as they were. */
  lemma Created(st: State, e: Edit, gap: bool)
    requires WellFormed(st)
    ensures var (r, n) := (CreateManual(st, e, gap), st.nextEntry);
            && r.ok && n !in st.entries && n in r.st.entries && r.st.nextEntry == n + 1
            && Only(st.(nextEntry := n + 1), r.st, n, r.st.entries[n])
            && (r.st.entries[n].span == e.span && r.st.entries[n].minutes == Minutes(e.span) && r.st.entries[n].day == e.day
                && r.st.entries[n].category == e.category && r.st.entries[n].description == e.description
                && r.st.entries[n].allocation == e.allocation && r.st.entries[n].attestation == Confirmed
                && r.st.entries[n].source == NoSource && r.st.entries[n].revision == NoRevision
                && r.st.entries[n].how == if gap then GapFill else NoMethod)
            && RemoveEntry(r.st, n) == Result(st.(nextEntry := n + 1), true)
  {
    hide Minutes;
    assert CreateManual(st, e, gap).st.entries - {st.nextEntry} == st.entries;
  }

  /** Exactly a stored row can be deleted, and no other row goes with it. */
  lemma Removed(st: State, id: nat)
    ensures RemoveEntry(st, id).ok <==> id in st.entries
    ensures var st' := RemoveEntry(st, id).st;
            && st' == st.(entries := st'.entries) && st'.entries.Keys == st.entries.Keys - {id}
            && forall x :: x in st'.entries ==> st'.entries[x] == st.entries[x]
  {
  }

  /** An all-day event of a visible calendar is converted exactly while it is included and has no live row. The draft
      has the interval the user picked, the user's category and text or else the event's, and answers the event at its
      stored facts; it is the live row that refuses a second conversion. */
  lemma Converted(env: Env, st: State, k: EventKey, e: Edit)
    requires env.Valid() && WellFormed(st)
    ensures ConvertAllDay(env, st, k, e).ok <==>
              && k in st.events && st.events[k].facts.allDay && st.events[k].active && !Excluded(st, SlotOf(st.events[k].facts))
              && var id := IdentityOf(st.events[k].calendar, st.events[k].facts);
                 !HasLinked(st, id, Confirmed) && !HasLinked(st, id, Draft)
    ensures !ConvertAllDay(env, st, k, e).ok ==> ConvertAllDay(env, st, k, e).st == st
    ensures ConvertAllDay(env, st, k, e).ok ==>
              var (st', ev, n) := (ConvertAllDay(env, st, k, e).st, st.events[k], st.nextEntry);
              && n in st'.entries && st'.nextEntry == n + 1 && Only(st.(nextEntry := n + 1), st', n, st'.entries[n])
              && st'.entries[n].span == e.span && st'.entries[n].minutes == Minutes(e.span) && st'.entries[n].day == e.day
              && st'.entries[n].category == (if e.category.Some? then e.category else EffectiveCategory(st, SlotOf(ev.facts)))
              && st'.entries[n].description == (if e.description == "" then ev.facts.title else e.description)
              && st'.entries[n].allocation == e.allocation && st'.entries[n].attestation == Draft
              && st'.entries[n].source == Calendar(IdentityOf(ev.calendar, ev.facts))
              && st'.entries[n].revision == Hash(ev.facts) && st'.entries[n].how == CalendarConvert
  {
    if k in st.events {
      ListingExact(env, st, IdentityOf(st.events[k].calendar, st.events[k].facts));
      hide WellFormed, Minutes, LinkedAs, HasLinked, Excluded, EffectiveCategory, ExactFor;
      ExactLinked(env.listRows(st.entries), st, IdentityOf(st.events[k].calendar, st.events[k].facts), Confirmed);
      ExactLinked(env.listRows(st.entries), st, IdentityOf(st.events[k].calendar, st.events[k].facts), Draft);
    }
  }

  /** Showing or hiding a calendar changes the visibility of its events and nothing else; showing it again undoes hiding
      it where its events were visible. */
  lemma Shown(st: State, calendar: int, active: bool)
    ensures var st' := SetCalendarActive(st, calendar, active);
            && st' == st.(events := st'.events) && st'.events.Keys == st.events.Keys
            && forall k :: k in st.events ==>
                 st'.events[k] == st.events[k].(active := if st.events[k].calendar == calendar then active else st.events[k].active)
    ensures (forall k :: k in st.events && st.events[k].calendar == calendar ==> st.events[k].active == active) ==>
              SetCalendarActive(SetCalendarActive(st, calendar, !active), calendar, active) == st
  {
    var st' := SetCalendarActive(SetCalendarActive(st, calendar, !active), calendar, active);
    if forall k :: k in st.events && st.events[k].calendar == calendar ==> st.events[k].active == active {
      assert st'.events == st.events;
    }
  }
}
