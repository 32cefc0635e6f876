/** What the user's answers achieve: resolving a review item, excluding an event, and how long that lasts. */
module LedgerAnswers {
  import opened Wrappers
  import opened Intervals
  import opened Cutting
  import opened LedgerTypes
  import opened LedgerSpec
  import opened LedgerSteps
  import opened LedgerDrafts
  import opened LedgerTheorems
  import opened LedgerShrink

  // ── the meaning of an answer ────────────────────────────────────────

  /** The answers each kind of item accepts, given the event it is about. */
  predicate Acceptable(env: Env, kind: ReviewKind, f: Facts, action: Action) {
    match kind
    case NewInGap => action == KeepGap || (action == UseEvent && Timed(f))
    case TitleChanged => action == Accept || action == Dismiss
    case DeletedCategorized => action == DropEntry || (action == KeepEntry && Timed(f) && env.hasTz)
    case TentativeEvent => action == Include || action == Exclude
    case AllDayEvent => action == Include || action == Exclude
    case SourceDrift => action == Dismiss || ((action == SpawnDraft || action == Replace) && Timed(f) && env.hasTz)
    case Unsupported => false
  }

  /** The answers that take the category of the event away. */
  predicate Uncategorizes(kind: ReviewKind, action: Action) {
    kind == DeletedCategorized || action == Exclude
  }

  /** The answers after which the event is excluded. */
  predicate Excludes(kind: ReviewKind, action: Action) {
    kind == DeletedCategorized || action == KeepGap || (kind == TentativeEvent && action == Exclude)
  }

  /** Any answer about an event that lasts all day leaves it included. */
  predicate Lifts(kind: ReviewKind, f: Facts) {
    kind == AllDayEvent && f.allDay
  }

  /** The overlays afterwards: those of the event as the answer has it, all others as they were. */
  ghost predicate OverlaysAnswered(st: State, st': State, kind: ReviewKind, f: Facts, action: Action) {
    var (category, status) := (OverlayKey(SlotOf(f), CategoryKind), OverlayKey(SlotOf(f), StatusKind));
    && OverlaysElsewhere(st, st', SlotOf(f))
    && (if Uncategorizes(kind, action) then category !in st'.overlays else SameAt(st.overlays, st'.overlays, category))
    && (if Excludes(kind, action) then status in st'.overlays && st'.overlays[status] == Overlay(None, ExcludedNote)
        else if Lifts(kind, f) && Excluded(st, SlotOf(f)) then status !in st'.overlays
        else SameAt(st.overlays, st'.overlays, status))
  }

  /** The rows with the live drafts of the event dismissed and nothing else changed. */
  ghost predicate Withdrawn(entries: map<nat, TimeEntry>, after: map<nat, TimeEntry>, id: Identity) {
    && after.Keys == entries.Keys
    && forall x :: x in entries ==>
         after[x] == if entries[x].source == Calendar(id) && entries[x].attestation == Draft
                     then entries[x].(attestation := Dismissed) else entries[x]
  }

  /** The confirmed entry that stays when its event is gone: the event's times, title and category, without a
      source. */
  ghost predicate KeptCopy(env: Env, st: State, ev: Event, te: TimeEntry)
    requires Timed(ev.facts)
  {
    && te.span == Interval(ev.facts.start.value, ev.facts.end.value) && te.minutes == Minutes(te.span)
    && te.day == env.localDay(te.span.start) && te.category == EffectiveCategory(st, SlotOf(ev.facts))
    && te.description == ev.facts.title && te.attestation == Confirmed
    && te.source == NoSource && te.revision == NoRevision && te.how == NoMethod
    && te.allocation == Allocation(Worked, None, Unset)
  }

  /** The `j`-th listed entry is the first of them that exists and is confirmed. */
  ghost predicate FirstOf(st: State, ids: seq<nat>, j: nat) {
    && j < |ids| && ids[j] in st.entries && st.entries[ids[j]].attestation == Confirmed
    && forall i :: 0 <= i < j ==> !(ids[i] in st.entries && st.entries[ids[i]].attestation == Confirmed)
  }

  /** What a drifted draft takes over from a confirmed entry: category, allocation and, unless the answer is to
      replace it or it has none, its text. */
  predicate TakesFrom(ev: Event, model: TimeEntry, action: Action, te: TimeEntry) {
    && te.category == model.category && te.allocation == model.allocation
    && te.description == if action == SpawnDraft && model.description != "" then model.description else ev.facts.title
  }

  function DriftedRows(payload: Payload): seq<nat> {
    if payload.DriftOf? then payload.ids else []
  }

  ghost predicate Redrafted(env: Env, st: State, ev: Event, payload: Payload, action: Action, te: TimeEntry)
    requires Timed(ev.facts)
  {
    && te.span == Interval(ev.facts.start.value, ev.facts.end.value) && te.minutes == Minutes(te.span)
    && te.day == env.localDay(te.span.start) && te.attestation == Draft && te.how == CalendarImport
    && te.source == Calendar(if payload.DriftOf? then payload.identity else IdentityOf(ev.calendar, ev.facts))
    && te.revision == (if payload.DriftOf? then payload.revision else Hash(ev.facts))
    && var ids := DriftedRows(payload);
       && (forall j: nat :: FirstOf(st, ids, j) ==> TakesFrom(ev, st.entries[ids[j]], action, te))
       && ((forall j: nat :: !FirstOf(st, ids, j)) ==>
             te.category == None && te.allocation == Allocation(Worked, None, Unset) && te.description == ev.facts.title)
  }

  /** Room was made for the event: no row meets it, and what is left of each row is its old span without it. */
  ghost predicate MadeRoom(st: State, st': State, event: Interval) {
    exists origin ::
      Descends(st, st', origin) && (forall x :: x in st.entries ==> Trimmed(st, st', origin, event, x))
      && (forall y, t :: y in st'.entries && Covers(st'.entries[y].span, t) ==> !Covers(event, t))
  }

  /** The rows afterwards. */
  ghost predicate RowsAnswered(env: Env, st: State, st': State, ev: Event, payload: Payload, action: Action) {
    var (id, n) := (IdentityOf(ev.calendar, ev.facts), st.nextEntry);
    match action
    case DropEntry => Withdrawn(st.entries, st'.entries, id) && st'.nextEntry == n
    case KeepEntry =>
      && Timed(ev.facts) && n in st'.entries && st'.nextEntry == n + 1
      && Withdrawn(st.entries, st'.entries - {n}, id) && KeptCopy(env, st, ev, st'.entries[n])
    case UseEvent =>
      && Timed(ev.facts)
      && (ev.facts.start.value <= ev.facts.end.value ==>
            MadeRoom(st, st.(entries := st'.entries, nextEntry := st'.nextEntry), Interval(ev.facts.start.value, ev.facts.end.value)))
    case SpawnDraft =>
      && Timed(ev.facts) && n in st'.entries && st'.nextEntry == n + 1
      && st'.entries == st.entries[n := st'.entries[n]] && Redrafted(env, st, ev, payload, action, st'.entries[n])
    case Replace =>
      && Timed(ev.facts) && n in st'.entries && st'.nextEntry == n + 1
      && st'.entries == st.entries[n := st'.entries[n]] && Redrafted(env, st, ev, payload, action, st'.entries[n])
    case _ => st'.entries == st.entries && st'.nextEntry == n
  }

  // ── the parts ───────────────────────────────────────────────────────

  lemma WithdrawsDrafts(env: Env, st: State, k: EventKey)
    requires env.Valid() && WellFormed(st) && k in st.events
    ensures var id := IdentityOf(st.events[k].calendar, st.events[k].facts);
            DismissDraftsOf(env, st, id).Done?
            && var st' := DismissDraftsOf(env, st, id).value;
               st' == st.(entries := st'.entries) && Withdrawn(st.entries, st'.entries, id)
  {
    hide WellFormed, Local, Tracks;
    var id := IdentityOf(st.events[k].calendar, st.events[k].facts);
    var st' := DismissDraftsStep(env, st, k);
    assert Lists(env.listRows(st.entries), st.entries);
    ListedDrafts(env.listRows(st.entries), st.entries, id);
  }

  lemma ListedDrafts(rows: seq<Row>, entries: map<nat, TimeEntry>, id: Identity)
    requires Lists(rows, entries)
    ensures forall x :: x in StaleDrafts(rows, id) <==> x in entries && Linked(entries[x], id) && entries[x].attestation == Draft
  {
    forall x | x in entries && Linked(entries[x], id) && entries[x].attestation == Draft ensures x in StaleDrafts(rows, id) {
      assert Row(x, entries[x]) in rows && Row(x, entries[x]).id == x;
    }
  }

  lemma {:induction false} FirstConfirmedIs(st: State, ids: seq<nat>)
    ensures var model := FirstConfirmed(st.entries, ids);
            && (forall j: nat :: FirstOf(st, ids, j) ==> model == Some(st.entries[ids[j]]))
            && (model.Some? ==> exists j: nat :: FirstOf(st, ids, j))
  {
    if |ids| > 0 {
      var model := FirstConfirmed(st.entries, ids);
      if ids[0] in st.entries && st.entries[ids[0]].attestation == Confirmed {
        assert FirstOf(st, ids, 0);
      } else {
        FirstConfirmedIs(st, ids[1..]);
        forall j: nat | FirstOf(st, ids, j) ensures model == Some(st.entries[ids[j]]) {
          assert forall i :: 0 <= i < j - 1 ==> ids[1..][i] == ids[i + 1];
          assert FirstOf(st, ids[1..], j - 1);
        }
        if model.Some? {
          var j: nat :| FirstOf(st, ids[1..], j);
          forall i | 0 <= i < j + 1 ensures !(ids[i] in st.entries && st.entries[ids[i]].attestation == Confirmed) {
            if i > 0 { assert ids[1..][i - 1] == ids[i]; }
          }
          assert FirstOf(st, ids, j + 1);
        }
      }
    }
  }

  lemma SpawnsDraft(env: Env, st: State, k: EventKey, payload: Payload, action: Action)
    requires WellFormed(st) && k in st.events && (action == SpawnDraft || action == Replace)
    ensures SpawnDriftDraft(env, st, k, payload, action == Replace).Done? <==> Timed(st.events[k].facts) && env.hasTz
    ensures SpawnDriftDraft(env, st, k, payload, action == Replace).Done? ==>
              var st' := SpawnDriftDraft(env, st, k, payload, action == Replace).value;
              st' == st.(entries := st'.entries, nextEntry := st'.nextEntry)
              && RowsAnswered(env, st, st', st.events[k], payload, action)
  {
    hide WellFormed, Minutes, FirstConfirmed, FirstOf;
    FirstConfirmedIs(st, DriftedRows(payload));
  }

  lemma {:induction false} ShrinksAnyway(st: State, rows: seq<Row>, event: Interval)
    requires forall r :: r in rows ==> r.id in st.entries
    requires forall i, j :: 0 <= i < j < |rows| ==> rows[i].id != rows[j].id
    ensures ShrinkAll(st, rows, event).Done?
    ensures var st' := ShrinkAll(st, rows, event).value;
            && (forall x :: x in st.entries && (forall r :: r in rows ==> r.id != x) ==> x in st'.entries)
            && st' == st.(entries := st'.entries, nextEntry := st'.nextEntry)
  {
    if |rows| > 0 {
      var init, last := rows[..|rows| - 1], rows[|rows| - 1];
      assert rows == init + [last];
      ShrinksAnyway(st, init, event);
      hide Cutting.SplitAround, Minutes;
    }
  }

  lemma UsesEvent(env: Env, st: State, event: Interval)
    requires env.Valid() && WellFormed(st)
    ensures ShrinkAll(st, env.listRows(st.entries), event).Done?
    ensures var st' := ShrinkAll(st, env.listRows(st.entries), event).value;
            && st' == st.(entries := st'.entries, nextEntry := st'.nextEntry)
            && (event.start <= event.end ==> MadeRoom(st, st', event))
  {
    var rows := env.listRows(st.entries);
    assert Lists(rows, st.entries);
    hide ShrinkAll, Descends, Trimmed, WellFormed;
    forall i, j | 0 <= i < j < |rows| ensures rows[i].id != rows[j].id {
      assert Before(rows[i], rows[j]) && rows[i] in rows && rows[j] in rows;
    }
    ShrinksAnyway(st, rows, event);
    if event.start <= event.end { var origin := UseEventTrims(env, st, event); }
  }

  /** What an answer does to the tables, before its item is closed. */
  ghost predicate Answered(env: Env, st: State, st': State, kind: ReviewKind, k: EventKey, payload: Payload, action: Action)
    requires k in st.events
  {
    && st'.events == st.events && st'.reviews == st.reviews
    && OverlaysAnswered(st, st', kind, st.events[k].facts, action)
    && RowsAnswered(env, st, st', st.events[k], payload, action)
  }

  lemma DeletedAnswered(env: Env, st: State, k: EventKey, payload: Payload, action: Action)
    requires env.Valid() && WellFormed(st) && k in st.events
    ensures ApplyDeleted(env, st, k, action).Done? <==> Acceptable(env, DeletedCategorized, st.events[k].facts, action)
    ensures ApplyDeleted(env, st, k, action).Done? ==>
              Answered(env, st, ApplyDeleted(env, st, k, action).value, DeletedCategorized, k, payload, action)
  {
    hide DismissDraftsOf, Withdrawn, Minutes, WellFormed, ConvertToManual, Answered;
    WithdrawsDrafts(env, st, k);
    var ev := st.events[k];
    var st1 := DismissDraftsOf(env, st, IdentityOf(ev.calendar, ev.facts)).value;
    if action == KeepEntry {
      KeptAnswered(env, st, st1, k, payload);
    } else if action == DropEntry {
      DroppedAnswered(env, st, st1, k, payload);
    }
  }

  lemma DroppedAnswered(env: Env, st: State, st1: State, k: EventKey, payload: Payload)
    requires k in st.events && st1 == st.(entries := st1.entries)
    requires Withdrawn(st.entries, st1.entries, IdentityOf(st.events[k].calendar, st.events[k].facts))
    ensures var slot := SlotOf(st.events[k].facts);
            Answered(env, st, MarkExcluded(DropOverlay(st1, slot, CategoryKind), slot), DeletedCategorized, k, payload, DropEntry)
  {
    hide Withdrawn;
  }

  lemma KeptAnswered(env: Env, st: State, st1: State, k: EventKey, payload: Payload)
    requires WellFormed(st) && k in st.events && st1 == st.(entries := st1.entries)
    requires Withdrawn(st.entries, st1.entries, IdentityOf(st.events[k].calendar, st.events[k].facts))
    ensures ConvertToManual(env, st1, st.events[k]).Done? <==> Timed(st.events[k].facts) && env.hasTz
    ensures ConvertToManual(env, st1, st.events[k]).Done? ==>
              Answered(env, st, MarkExcluded(ConvertToManual(env, st1, st.events[k]).value, SlotOf(st.events[k].facts)),
                       DeletedCategorized, k, payload, KeepEntry)
  {
    hide Withdrawn, Minutes, WellFormed, EffectiveCategory, Excluded;
    var n := st.nextEntry;
    NextIsFree(st, st1, IdentityOf(st.events[k].calendar, st.events[k].facts));
    SameCategories(st, st1);
    if ConvertToManual(env, st1, st.events[k]).Done? {
      var st2 := ConvertToManual(env, st1, st.events[k]).value;
      assert st2.entries - {n} == st1.entries;
    }
  }

  lemma NextIsFree(st: State, st1: State, id: Identity)
    requires WellFormed(st) && Withdrawn(st.entries, st1.entries, id)
    ensures st.nextEntry !in st1.entries
  {
  }

  lemma SameCategories(a: State, b: State)
    requires a.overlays == b.overlays
    ensures forall slot :: EffectiveCategory(a, slot) == EffectiveCategory(b, slot)
  {
  }

  lemma GapAnswered(env: Env, st: State, k: EventKey, payload: Payload, action: Action)
    requires env.Valid() && WellFormed(st) && k in st.events
    ensures ApplyNewInGap(env, st, k, action).Done? <==> Acceptable(env, NewInGap, st.events[k].facts, action)
    ensures ApplyNewInGap(env, st, k, action).Done? ==>
              Answered(env, st, ApplyNewInGap(env, st, k, action).value, NewInGap, k, payload, action)
  {
    hide WellFormed, ShrinkAll, MadeRoom;
    var f := st.events[k].facts;
    if Timed(f) { UsesEvent(env, st, Interval(f.start.value, f.end.value)); }
  }

  lemma IncludeAnswered(env: Env, st: State, kind: ReviewKind, k: EventKey, payload: Payload, action: Action)
    requires k in st.events && (kind == TentativeEvent || kind == AllDayEvent)
    ensures ApplyIncludeExclude(st, kind, k, action).Done? <==> Acceptable(env, kind, st.events[k].facts, action)
    ensures ApplyIncludeExclude(st, kind, k, action).Done? ==>
              Answered(env, st, ApplyIncludeExclude(st, kind, k, action).value, kind, k, payload, action)
  {
  }

  lemma Answers(env: Env, st: State, kind: ReviewKind, k: EventKey, payload: Payload, action: Action)
    requires env.Valid() && WellFormed(st) && k in st.events
    ensures Apply(env, st, kind, k, payload, action).Done? <==> Acceptable(env, kind, st.events[k].facts, action)
    ensures Apply(env, st, kind, k, payload, action).Done? ==>
              var (st', status) := Apply(env, st, kind, k, payload, action).value;
              Answered(env, st, st', kind, k, payload, action) && status == if action == Dismiss then Closed else Resolved
  {
    hide WellFormed, ApplyDeleted, ApplyNewInGap, ApplyIncludeExclude, SpawnDriftDraft, Withdrawn, MadeRoom, KeptCopy, Redrafted, Excluded;
    match kind
    case DeletedCategorized => DeletedAnswered(env, st, k, payload, action);
    case NewInGap => GapAnswered(env, st, k, payload, action);
    case TentativeEvent => IncludeAnswered(env, st, kind, k, payload, action);
    case AllDayEvent => IncludeAnswered(env, st, kind, k, payload, action);
    case SourceDrift => if action == SpawnDraft || action == Replace { SpawnsDraft(env, st, k, payload, action); }
    case _ =>
  }

  // ── resolving an item, excluding an event ───────────────────────────

  /** Resolving an item is accepted exactly for an open item and an answer its kind takes. It then records the
      answer on that item, and changes overlays and rows as the answer has it; no event and no other item changes. */
  lemma ReviewAnswered(env: Env, st: State, rk: ReviewKey, action: Action)
    requires env.Valid() && WellFormed(st)
    ensures ResolveReview(env, st, rk, action).Done? <==>
              && rk in st.reviews && st.reviews[rk].status == Open && st.reviews[rk].event in st.events
              && Acceptable(env, rk.kind, st.events[st.reviews[rk].event].facts, action)
    ensures ResolveReview(env, st, rk, action).Done? ==>
              var (st', item) := (ResolveReview(env, st, rk, action).value, st.reviews[rk]);
              var ev := st.events[item.event];
              && st'.events == st.events
              && st'.reviews == st.reviews[rk := Review(item.event, item.payload, if action == Dismiss then Closed else Resolved, action)]
              && OverlaysAnswered(st, st', rk.kind, ev.facts, action)
              && RowsAnswered(env, st, st', ev, item.payload, action)
  {
    if rk in st.reviews { assert st.reviews[rk].event in st.events; }
    hide WellFormed, Apply, OverlaysAnswered, RowsAnswered, Acceptable;
    if rk in st.reviews {
      var item := st.reviews[rk];
      Answers(env, st, rk.kind, item.event, item.payload, action);
      var o := ResolveReview(env, st, rk, action);
      if o.Done? {
        var st1 := Apply(env, st, rk.kind, item.event, item.payload, action).value.0;
        SameAnswered(env, st, st1, o.value, rk.kind, st.events[item.event], item.payload, action);
      }
    }
  }

  lemma SameAnswered(env: Env, st: State, a: State, b: State, kind: ReviewKind, ev: Event, payload: Payload, action: Action)
    requires a.overlays == b.overlays && a.entries == b.entries && a.nextEntry == b.nextEntry
    ensures OverlaysAnswered(st, a, kind, ev.facts, action) ==> OverlaysAnswered(st, b, kind, ev.facts, action)
    ensures RowsAnswered(env, st, a, ev, payload, action) ==> RowsAnswered(env, st, b, ev, payload, action)
  {
    hide Withdrawn, MadeRoom, KeptCopy, Redrafted, Excluded, Minutes;
  }

  /** Excluding a stored event succeeds. Its slot is then excluded and has no category, its live drafts are
      dismissed and its open items closed as excluded; every other row, item and slot and all events are as before. */
  lemma ExclusionAchieved(env: Env, st: State, k: EventKey)
    requires env.Valid() && WellFormed(st)
    ensures ExcludeEvent(env, st, k).Done? <==> k in st.events
    ensures k in st.events ==>
              var (st', ev) := (ExcludeEvent(env, st, k).value, st.events[k]);
              && st'.events == st.events && st'.nextEntry == st.nextEntry
              && OverlaysElsewhere(st, st', SlotOf(ev.facts))
              && Excluded(st', SlotOf(ev.facts)) && EffectiveCategory(st', SlotOf(ev.facts)) == None
              && Withdrawn(st.entries, st'.entries, IdentityOf(ev.calendar, ev.facts))
              && !HasLinked(st', IdentityOf(ev.calendar, ev.facts), Draft)
              && st'.reviews.Keys == st.reviews.Keys
              && (forall rk :: rk in st.reviews ==>
                    st'.reviews[rk] == if st.reviews[rk].status == Open && st.reviews[rk].event == k
                                       then Review(k, st.reviews[rk].payload, Closed, Exclude) else st.reviews[rk])
  {
    hide WellFormed, DismissDraftsOf, Withdrawn, HasLinked;
    if k in st.events {
      var ev := st.events[k];
      var st0 := DropOverlay(st, SlotOf(ev.facts), CategoryKind);
      SameRowsDropped(st, SlotOf(ev.facts));
      WithdrawsDrafts(env, st0, k);
      NoneLive(st, ExcludeEvent(env, st, k).value, IdentityOf(ev.calendar, ev.facts));
    }
  }

  lemma SameRowsDropped(st: State, slot: Slot)
    requires WellFormed(st)
    ensures WellFormed(DropOverlay(st, slot, CategoryKind))
  {
  }

  lemma NoneLive(st: State, st': State, id: Identity)
    ensures Withdrawn(st.entries, st'.entries, id) ==> !HasLinked(st', id, Draft)
  {
  }
}
