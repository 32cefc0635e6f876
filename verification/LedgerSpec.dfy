/** What each ledger operation does to the tables, as functions on states: the specification that
    the methods of `ReviewPolicy`, `SyncService` and `EntryService` are proved against and about which the theorems are stated. */
module LedgerSpec {
  import opened Wrappers
  import opened Intervals
  import opened Cutting
  import opened LedgerTypes

  const DEFAULT_ALLOCATION := Allocation(Worked, None, Unset)

  // ── queries ─────────────────────────────────────────────────────────

  predicate Excluded(st: State, slot: Slot) {
    var ok := OverlayKey(slot, StatusKind);
    ok in st.overlays && st.overlays[ok].note == ExcludedNote
  }

  function EffectiveCategory(st: State, slot: Slot): Option<int> {
    var ok := OverlayKey(slot, CategoryKind);
    if ok in st.overlays then st.overlays[ok].category else None
  }

  predicate Categorized(st: State, slot: Slot) {
    EffectiveCategory(st, slot).Some?
  }

  predicate OpenTentative(st: State, k: EventKey) {
    exists rk | rk in st.reviews ::
      rk.kind == TentativeEvent && st.reviews[rk].status == Open && st.reviews[rk].event == k
  }

  predicate Linked(te: TimeEntry, id: Identity) {
    te.source == Calendar(id)
  }

  predicate LinkedAs(rows: seq<Row>, id: Identity, a: Attestation) {
    exists r | r in rows :: Linked(r.te, id) && r.te.attestation == a
  }

  predicate AllDismissed(rows: seq<Row>, id: Identity) {
    && (exists r | r in rows :: Linked(r.te, id))
    && (forall r | r in rows :: Linked(r.te, id) ==> r.te.attestation == Dismissed)
  }

  predicate DraftEligible(f: Facts) {
    Timed(f)
  }

  predicate TitleMaterial(env: Env, ex: Event, inc: Incoming) {
    env.normalize(ex.facts.title) != env.normalize(inc.facts.title)
  }

  predicate IncludeDropped(ex: Event, inc: Incoming) {
    (ex.status == Accepted || ex.status == NoStatus)
    && (inc.status == Declined || inc.status == Tentative || inc.status == NeedsAction)
  }

  predicate NeedsAnswer(status: Status) {
    status == Tentative || status == NeedsAction
  }

  // ── overlays ────────────────────────────────────────────────────────

  function SetOverlay(st: State, slot: Slot, kind: OverlayKind, o: Overlay): State {
    st.(overlays := st.overlays[OverlayKey(slot, kind) := o])
  }

  function MarkExcluded(st: State, slot: Slot): State {
    SetOverlay(st, slot, StatusKind, Overlay(None, ExcludedNote))
  }

  function DropOverlay(st: State, slot: Slot, kind: OverlayKind): State {
    st.(overlays := st.overlays - {OverlayKey(slot, kind)})
  }

  // ── time entries ────────────────────────────────────────────────────

  function CreateEntry(st: State, te: TimeEntry): State {
    st.(entries := st.entries[st.nextEntry := te], nextEntry := st.nextEntry + 1)
  }

  function StaleDrafts(rows: seq<Row>, id: Identity): set<nat> {
    set r | r in rows && Linked(r.te, id) && r.te.attestation == Draft :: r.id
  }

  function Attest(entries: map<nat, TimeEntry>, ids: set<nat>, a: Attestation): map<nat, TimeEntry> {
    map id | id in entries :: if id in ids then entries[id].(attestation := a) else entries[id]
  }

  /** Soft-rejects every draft of an identity in a listing; a listed row that is gone is an error. */
  function DismissLinked(st: State, rows: seq<Row>, id: Identity): Outcome<State> {
    var ids := StaleDrafts(rows, id);
    if ids <= st.entries.Keys then Done(st.(entries := Attest(st.entries, ids, Dismissed))) else Failed
  }

  function LinkedIds(rows: seq<Row>, id: Identity): set<nat> {
    set r | r in rows && Linked(r.te, id) :: r.id
  }

  function BumpRevisions(st: State, ids: set<nat>, rev: Revision): State {
    st.(entries := map id | id in st.entries ::
          if id in ids then st.entries[id].(revision := rev) else st.entries[id])
  }

  function ProposalOf(env: Env, inc: Incoming, category: Option<int>): TimeEntry
    requires Timed(inc.facts)
  {
    var span := Interval(inc.facts.start.value, inc.facts.end.value);
    TimeEntry(span, Minutes(span), env.localDay(span.start), category, inc.facts.title, Draft,
              Calendar(IncIdentity(inc)), Hash(inc.facts), CalendarImport, DEFAULT_ALLOCATION)
  }

  /** Refreshes one listed draft from the event. The update is conditional on the stored row still
      being a draft and fails otherwise; an up-to-date draft is left alone. */
  function RefreshOne(env: Env, st: State, inc: Incoming, r: Row): Outcome<State>
    requires Timed(inc.facts)
  {
    if !Linked(r.te, IncIdentity(inc)) || r.te.attestation != Draft || r.te.revision == Hash(inc.facts) then Done(st)
    else if !env.hasTz || r.id !in st.entries || st.entries[r.id].attestation != Draft then Failed
    else
      var overlay := EffectiveCategory(st, SlotOf(inc.facts));
      var p := ProposalOf(env, inc, if overlay.Some? then overlay else r.te.category);
      var te := st.entries[r.id].(span := p.span, minutes := p.minutes, day := p.day, description := p.description,
                                  revision := p.revision, category := p.category);
      Done(st.(entries := st.entries[r.id := te]))
  }

  function RefreshAll(env: Env, st: State, inc: Incoming, rows: seq<Row>): Outcome<State>
    requires Timed(inc.facts)
  {
    if |rows| == 0 then Done(st)
    else
      var st' :- RefreshAll(env, st, inc, rows[..|rows| - 1]);
      RefreshOne(env, st', inc, rows[|rows| - 1])
  }

  // ── shrinking fills for an event ────────────────────────────────────

  function WithSpan(te: TimeEntry, span: Interval): TimeEntry {
    te.(span := span, minutes := Minutes(span))
  }

  function ShrinkOne(st: State, r: Row, event: Interval): Outcome<State> {
    var a := SplitAround(r.te.span, event);
    if a.overlap.None? then Done(st)
    else if a.before.None? && a.after.None? then Done(st.(entries := st.entries - {r.id}))
    else if r.id !in st.entries then Failed
    else if a.before.None? then
      Done(st.(entries := st.entries[r.id := WithSpan(st.entries[r.id], a.after.value)]))
    else
      var st1 := st.(entries := st.entries[r.id := WithSpan(st.entries[r.id], a.before.value)]);
      if a.after.None? then Done(st1) else Done(CreateEntry(st1, WithSpan(r.te, a.after.value)))
  }

  function ShrinkAll(st: State, rows: seq<Row>, event: Interval): Outcome<State> {
    if |rows| == 0 then Done(st)
    else
      var st' :- ShrinkAll(st, rows[..|rows| - 1], event);
      ShrinkOne(st', rows[|rows| - 1], event)
  }

  // ── review policy ───────────────────────────────────────────────────

  /** Opens an item, or reports the recorded decision of a closed one (`NoAction` when open or new). */
  function EnqueueOrReplay(st: State, rk: ReviewKey, k: EventKey, payload: Payload): (State, Action, nat) {
    if rk in st.reviews then
      (st, if st.reviews[rk].status == Open then NoAction else st.reviews[rk].action, 0)
    else
      (st.(reviews := st.reviews[rk := Review(k, payload, Open, NoAction)]), NoAction, 1)
  }

  /** Opens, refreshes or reopens the one source-drift item of an identity. */
  function EnqueueDrift(st: State, k: EventKey, id: Identity, payload: Payload): (State, nat) {
    var rk := ReviewKey(SourceDrift, id, Drifted);
    if rk in st.reviews && st.reviews[rk].status == Open then
      (st.(reviews := st.reviews[rk := st.reviews[rk].(payload := payload)]), 0)
    else
      (st.(reviews := st.reviews[rk := Review(k, payload, Open, NoAction)]), 1)
  }

  function GapParts(span: Interval, rows: seq<Row>): seq<GapPart> {
    if |rows| == 0 then []
    else
      var r := rows[|rows| - 1];
      GapParts(span, rows[..|rows| - 1])
      + (if Overlaps(span, r.te.span) then [GapPart(r.te.span, r.te.category, r.te.how)] else [])
  }

  /** The spans, categories and methods of the listed entries an incoming event overlaps. */
  function Fingerprint(f: Facts, rows: seq<Row>): seq<GapPart> {
    if f.start.None? || f.end.None? then [] else GapParts(Interval(f.start.value, f.end.value), rows)
  }

  function DriftedIds(rows: seq<Row>, id: Identity, rev: Revision): seq<nat> {
    if |rows| == 0 then []
    else
      var r := rows[|rows| - 1];
      DriftedIds(rows[..|rows| - 1], id, rev)
      + (if r.te.attestation == Confirmed && Linked(r.te, id) && r.te.revision != rev then [r.id] else [])
  }

  function DismissDraftsOf(env: Env, st: State, id: Identity): Outcome<State> {
    DismissLinked(st, env.listRows(st.entries), id)
  }

  function ConvertToManual(env: Env, st: State, ev: Event): Outcome<State> {
    if !Timed(ev.facts) || !env.hasTz then Failed
    else
      var span := Interval(ev.facts.start.value, ev.facts.end.value);
      var te := TimeEntry(span, Minutes(span), env.localDay(span.start), EffectiveCategory(st, SlotOf(ev.facts)),
                          ev.facts.title, Confirmed, NoSource, NoRevision, NoMethod, DEFAULT_ALLOCATION);
      Done(DropOverlay(CreateEntry(st, te), SlotOf(ev.facts), CategoryKind))
  }

  function ApplyDeleted(env: Env, st: State, k: EventKey, action: Action): Outcome<State> {
    if k !in st.events then Failed
    else
      var ev := st.events[k];
      var slot := SlotOf(ev.facts);
      var id := IdentityOf(ev.calendar, ev.facts);
      match action
      case KeepEntry =>
        var st1 :- DismissDraftsOf(env, st, id);
        var st2 :- ConvertToManual(env, st1, ev);
        Done(MarkExcluded(st2, slot))
      case DropEntry =>
        var st1 :- DismissDraftsOf(env, st, id);
        Done(MarkExcluded(DropOverlay(st1, slot, CategoryKind), slot))
      case _ => Failed
  }

  function ApplyNewInGap(env: Env, st: State, k: EventKey, action: Action): Outcome<State> {
    if k !in st.events then Failed
    else
      var ev := st.events[k];
      match action
      case KeepGap => Done(MarkExcluded(st, SlotOf(ev.facts)))
      case UseEvent =>
        if !Timed(ev.facts) then Failed
        else ShrinkAll(st, env.listRows(st.entries), Interval(ev.facts.start.value, ev.facts.end.value))
      case _ => Failed
  }

  function ClearAllDayExclusion(st: State, k: EventKey): Outcome<State> {
    if k !in st.events then Failed
    else if !st.events[k].facts.allDay || !Excluded(st, SlotOf(st.events[k].facts)) then Done(st)
    else Done(DropOverlay(st, SlotOf(st.events[k].facts), StatusKind))
  }

  function ApplyIncludeExclude(st: State, kind: ReviewKind, k: EventKey, action: Action): Outcome<State> {
    match action
    case Include => if kind == AllDayEvent then ClearAllDayExclusion(st, k) else Done(st)
    case Exclude =>
      if k !in st.events then Failed
      else
        var slot := SlotOf(st.events[k].facts);
        var st1 := DropOverlay(st, slot, CategoryKind);
        if kind == AllDayEvent then ClearAllDayExclusion(st1, k) else Done(MarkExcluded(st1, slot))
    case _ => Failed
  }

  /** The first listed entry that exists and is confirmed. */
  function FirstConfirmed(entries: map<nat, TimeEntry>, ids: seq<nat>): Option<TimeEntry> {
    if |ids| == 0 then None
    else if ids[0] in entries && entries[ids[0]].attestation == Confirmed then Some(entries[ids[0]])
    else FirstConfirmed(entries, ids[1..])
  }

  function SpawnDriftDraft(env: Env, st: State, k: EventKey, payload: Payload, replace: bool): Outcome<State> {
    if k !in st.events || !Timed(st.events[k].facts) || !env.hasTz then Failed
    else
      var ev := st.events[k];
      var (ids, id, rev) := match payload
        case DriftOf(ids, id, rev, _) => (ids, id, rev)
        case _ => ([], IdentityOf(ev.calendar, ev.facts), Hash(ev.facts));
      var model := FirstConfirmed(st.entries, ids);
      var span := Interval(ev.facts.start.value, ev.facts.end.value);
      var text := if model.Some? && !replace && model.value.description != "" then model.value.description
                  else ev.facts.title;
      Done(CreateEntry(st, TimeEntry(span, Minutes(span), env.localDay(span.start),
                                     if model.Some? then model.value.category else None, text, Draft, Calendar(id), rev,
                                     CalendarImport, if model.Some? then model.value.allocation else DEFAULT_ALLOCATION)))
  }

  function Apply(env: Env, st: State, kind: ReviewKind, k: EventKey, payload: Payload, action: Action)
    : Outcome<(State, ReviewStatus)>
  {
    match kind
    case DeletedCategorized =>
      var st' :- ApplyDeleted(env, st, k, action);
      Done((st', Resolved))
    case TitleChanged =>
      if action == Accept then Done((st, Resolved)) else if action == Dismiss then Done((st, Closed)) else Failed
    case NewInGap =>
      var st' :- ApplyNewInGap(env, st, k, action);
      Done((st', Resolved))
    case TentativeEvent =>
      var st' :- ApplyIncludeExclude(st, kind, k, action);
      Done((st', Resolved))
    case AllDayEvent =>
      var st' :- ApplyIncludeExclude(st, kind, k, action);
      Done((st', Resolved))
    case SourceDrift =>
      if action == Dismiss then Done((st, Closed))
      else if action == SpawnDraft || action == Replace then
        var st' :- SpawnDriftDraft(env, st, k, payload, action == Replace);
        Done((st', Resolved))
      else Failed
    case Unsupported => Failed
  }

  /** Flags a new event (a filled gap first, then all-day, then unanswered) and replays a recorded
      decision. Yields the state, the items opened, and whether automatic categories are skipped. */
  function OnNewEvent(env: Env, st: State, inc: Incoming, rows: seq<Row>): Outcome<(State, nat, bool)> {
    var (k, id) := (IncKey(inc), IncIdentity(inc));
    var parts := Fingerprint(inc.facts, rows);
    if parts != [] then
      var (st1, action, flagged) := EnqueueOrReplay(st, ReviewKey(NewInGap, id, GapPrint(parts)), k, Titled(inc.facts.title));
      if action == KeepGap || action == UseEvent then
        var (st2, _) :- Apply(env, st1, NewInGap, k, NoPayload, action);
        Done((st2, flagged, action == KeepGap))
      else Done((st1, flagged, false))
    else if inc.facts.allDay then
      var (st1, _, flagged) := EnqueueOrReplay(st, ReviewKey(AllDayEvent, id, Dates(inc.facts.startDate, inc.facts.endDate)), k,
                                               Titled(inc.facts.title));
      Done((st1, flagged, false))
    else if NeedsAnswer(inc.status) then
      var (st1, action, flagged) := EnqueueOrReplay(st, ReviewKey(TentativeEvent, id, StatusIs(inc.status)), k,
                                                    Titled(inc.facts.title));
      if action == Exclude then
        var (st2, _) :- Apply(env, st1, TentativeEvent, k, NoPayload, action);
        Done((st2, flagged, true))
      else Done((st1, flagged, false))
    else Done((st, 0, false))
  }

  function OnRetitled(env: Env, st: State, ex: Event, inc: Incoming): (State, nat) {
    if !TitleMaterial(env, ex, inc) then (st, 0)
    else
      var detail := Titles(env.normalize(ex.facts.title), env.normalize(inc.facts.title));
      var (st', _, n) := EnqueueOrReplay(st, ReviewKey(TitleChanged, IncIdentity(inc), detail), IncKey(inc),
                                         Renamed(ex.facts.title, inc.facts.title));
      (st', n)
  }

  function OnDeclined(env: Env, st: State, inc: Incoming): Outcome<(State, nat)> {
    if inc.status != Declined then Done((st, 0))
    else
      var rk := ReviewKey(DeletedCategorized, IncIdentity(inc), WasDeclined);
      var (st1, action, n) := EnqueueOrReplay(st, rk, IncKey(inc), Titled(inc.facts.title));
      if action != DropEntry then Done((st1, n))
      else
        var (st2, _) :- Apply(env, st1, DeletedCategorized, IncKey(inc), NoPayload, action);
        Done((st2, n))
  }

  /** Flags a retitled or declined event that is already categorized. */
  function OnChangedCategorized(env: Env, st: State, ex: Event, inc: Incoming): Outcome<(State, nat)> {
    var (st1, n1) := OnRetitled(env, st, ex, inc);
    var (st2, n2) :- OnDeclined(env, st1, inc);
    Done((st2, n1 + n2))
  }

  function OnConfirmedSourceDrift(st: State, inc: Incoming, rows: seq<Row>): (State, nat) {
    var id := IncIdentity(inc);
    var ids := DriftedIds(rows, id, Hash(inc.facts));
    if ids == [] then (st, 0)
    else EnqueueDrift(st, IncKey(inc), id, DriftOf(ids, id, Hash(inc.facts), inc.facts.title))
  }

  /** No stored revision equals the one of a deleted source, except on drafts spawned for it. */
  function ConfirmedIds(rows: seq<Row>, id: Identity): seq<nat> {
    if |rows| == 0 then []
    else
      var r := rows[|rows| - 1];
      ConfirmedIds(rows[..|rows| - 1], id)
      + (if r.te.attestation == Confirmed && Linked(r.te, id) then [r.id] else [])
  }

  function DeletedPayload(rows: seq<Row>, ev: Event): Payload {
    var id := IdentityOf(ev.calendar, ev.facts);
    DriftOf(ConfirmedIds(rows, id), id, DeletedRevision, ev.facts.title)
  }

  function OnVanishedCategorized(env: Env, st: State, ev: Event): Outcome<(State, nat, nat)> {
    var (k, id) := (KeyOf(ev.calendar, ev.facts), IdentityOf(ev.calendar, ev.facts));
    var (st1, action, flagged) := EnqueueOrReplay(st, ReviewKey(DeletedCategorized, id, WasDeleted), k, Titled(ev.facts.title));
    if action == DropEntry || action == KeepEntry then
      var (st2, _) :- Apply(env, st1, DeletedCategorized, k, NoPayload, action);
      Done((st2, flagged, if action == DropEntry then 1 else 0))
    else Done((st1, flagged, 0))
  }

  // ── draft materialization ───────────────────────────────────────────

  function Materialize(env: Env, st: State, inc: Incoming, rows: seq<Row>, material: bool): Outcome<(State, seq<Row>)> {
    var id := IncIdentity(inc);
    if !DraftEligible(inc.facts) then Done((st, rows))
    else if Excluded(st, SlotOf(inc.facts)) then
      var st' :- DismissLinked(st, rows, id);
      Done((st', rows))
    else if NeedsAnswer(inc.status) && OpenTentative(st, IncKey(inc)) then Done((st, rows))
    else if LinkedAs(rows, id, Confirmed) || LinkedAs(rows, id, Draft) then
      var st' :- RefreshAll(env, st, inc, rows);
      Done((st', rows))
    else if AllDismissed(rows, id) && !material then
      Done((BumpRevisions(st, LinkedIds(rows, id), Hash(inc.facts)), rows))
    else if !env.hasTz then Failed
    else
      var te := ProposalOf(env, inc, EffectiveCategory(st, SlotOf(inc.facts)));
      Done((CreateEntry(st, te), rows + [Row(st.nextEntry, te)]))
  }

  // ── sync ────────────────────────────────────────────────────────────

  function UpsertEvent(st: State, inc: Incoming): State {
    var k := IncKey(inc);
    var active := if k in st.events then st.events[k].active else true;
    st.(events := st.events[k := Event(inc.calendar, inc.facts, inc.status, active)])
  }

  /** Deleting an event row deletes the review rows that reference it. */
  function DeleteEvent(st: State, k: EventKey): State {
    st.(events := st.events - {k},
        reviews := map rk | rk in st.reviews && st.reviews[rk].event != k :: st.reviews[rk])
  }

  function CategoryOverlay(category: int): Overlay {
    Overlay(Some(category), NoNote)
  }

  function MatchKeyOf(env: Env, f: Facts): MatchKey {
    if f.recurring != "" then ByRecurring(f.recurring)
    else ByTitle(env.normalize(f.title), env.organizerKey(f.organizer))
  }

  function ApplyMemory(env: Env, st: State, inc: Incoming): State {
    var mk := MatchKeyOf(env, inc.facts);
    if mk in env.memory then SetOverlay(st, SlotOf(inc.facts), CategoryKind, CategoryOverlay(env.memory[mk])) else st
  }

  function ApplyCalendarDefault(env: Env, st: State, inc: Incoming): State {
    if Categorized(st, SlotOf(inc.facts)) then st
    else if inc.calendar in env.calendarDefault && env.calendarDefault[inc.calendar].Some? then
      SetOverlay(st, SlotOf(inc.facts), CategoryKind, CategoryOverlay(env.calendarDefault[inc.calendar].value))
    else st
  }

  function ApplySuggestion(env: Env, st: State, inc: Incoming): State {
    if Categorized(st, SlotOf(inc.facts)) then st
    else
      var s := env.suggest(inc);
      if s.Some? then SetOverlay(st, SlotOf(inc.facts), CategoryKind, CategoryOverlay(s.value)) else st
  }

  function AutoCategorize(env: Env, st: State, inc: Incoming): State {
    ApplySuggestion(env, ApplyCalendarDefault(env, ApplyMemory(env, st, inc), inc), inc)
  }

  function HandleNew(env: Env, st: State, inc: Incoming, rows: seq<Row>): Outcome<(State, nat)> {
    var (st1, flagged, skipAuto) :- OnNewEvent(env, st, inc, rows);
    Done((if skipAuto then st1 else AutoCategorize(env, st1, inc), flagged))
  }

  function HandleChanged(env: Env, st: State, ex: Event, inc: Incoming, rows: seq<Row>): Outcome<(State, nat)> {
    var (st1, drift) := OnConfirmedSourceDrift(st, inc, rows);
    var id := IncIdentity(inc);
    if !Categorized(st1, SlotOf(inc.facts)) then Done((st1, drift))
    else if LinkedAs(rows, id, Draft) && !LinkedAs(rows, id, Confirmed) && TitleMaterial(env, ex, inc)
            && inc.status != Declined then Done((st1, drift))
    else
      var (st2, n) :- OnChangedCategorized(env, st1, ex, inc);
      Done((st2, drift + n))
  }

  /** The running state of a sync: tables, the listing taken at its start extended with the drafts
      created since, and the counters. */
  datatype Sync = Sync(st: State, rows: seq<Row>, res: Counts)

  function PullOne(env: Env, base: map<EventKey, Event>, inc: Incoming, s: Sync): Outcome<Sync> {
    var k := IncKey(inc);
    if k !in base then
      var (st1, flagged) :- HandleNew(env, UpsertEvent(s.st, inc), inc, s.rows);
      var (st2, rows) :- Materialize(env, st1, inc, s.rows, false);
      Done(Sync(st2, rows, s.res.(added := s.res.added + 1, flagged := s.res.flagged + flagged)))
    else if base[k].facts == inc.facts then
      var (st1, rows) :- Materialize(env, s.st, inc, s.rows, false);
      Done(Sync(st1, rows, s.res.(kept := s.res.kept + 1)))
    else
      var (st1, flagged) :- HandleChanged(env, UpsertEvent(s.st, inc), base[k], inc, s.rows);
      var material := TitleMaterial(env, base[k], inc) || IncludeDropped(base[k], inc);
      var (st2, rows) :- Materialize(env, st1, inc, s.rows, material);
      Done(Sync(st2, rows, s.res.(updated := s.res.updated + 1, flagged := s.res.flagged + flagged)))
  }

  function PullAll(env: Env, base: map<EventKey, Event>, pull: seq<Incoming>, s: Sync): Outcome<Sync> {
    if |pull| == 0 then Done(s)
    else
      var s' :- PullAll(env, base, pull[..|pull| - 1], s);
      PullOne(env, base, pull[|pull| - 1], s')
  }

  function Keys(pull: seq<Incoming>): set<EventKey> {
    set inc | inc in pull :: IncKey(inc)
  }

  function VanishOne(env: Env, seen: set<EventKey>, ev: Event, s: Sync): Outcome<Sync> {
    var (k, slot) := (KeyOf(ev.calendar, ev.facts), SlotOf(ev.facts));
    if k in seen || Excluded(s.st, slot) then Done(s)
    else if Categorized(s.st, slot) then
      var (st1, flagged, removed) :- OnVanishedCategorized(env, s.st, ev);
      Done(Sync(st1, s.rows, s.res.(flagged := s.res.flagged + flagged, removed := s.res.removed + removed)))
    else if ConfirmedIds(s.rows, IdentityOf(ev.calendar, ev.facts)) != [] then
      var (st1, flagged) := EnqueueDrift(s.st, k, IdentityOf(ev.calendar, ev.facts), DeletedPayload(s.rows, ev));
      Done(Sync(st1, s.rows, s.res.(flagged := s.res.flagged + flagged)))
    else Done(Sync(DeleteEvent(s.st, k), s.rows, s.res.(removed := s.res.removed + 1)))
  }

  function VanishAll(env: Env, seen: set<EventKey>, gone: seq<Event>, s: Sync): Outcome<Sync> {
    if |gone| == 0 then Done(s)
    else
      var s' :- VanishAll(env, seen, gone[..|gone| - 1], s);
      VanishOne(env, seen, gone[|gone| - 1], s')
  }

  ghost function BaseEvents(env: Env, events: map<EventKey, Event>): seq<Event>
    requires env.Valid()
  {
    var keys := env.listKeys(events);
    seq(|keys|, i requires 0 <= i < |keys| => events[keys[i]])
  }

  /** The whole merge. An error rolls the transaction back, so it yields no state. */
  ghost function SyncEvents(env: Env, st: State, pull: seq<Incoming>): Outcome<(State, Counts)>
    requires env.Valid()
  {
    var s0 := Sync(st, env.listRows(st.entries), Counts(0, 0, 0, 0, 0));
    var s1 :- PullAll(env, st.events, pull, s0);
    var s2 :- VanishAll(env, Keys(pull), BaseEvents(env, st.events), s1);
    Done((s2.st, s2.res))
  }

  // ── user steps on reviews and events ────────────────────────────────

  function ResolveReview(env: Env, st: State, rk: ReviewKey, action: Action): Outcome<State> {
    if rk !in st.reviews || st.reviews[rk].status != Open then Failed
    else
      var item := st.reviews[rk];
      var (st1, status) :- Apply(env, st, rk.kind, item.event, item.payload, action);
      Done(st1.(reviews := st1.reviews[rk := item.(status := status, action := action)]))
  }

  function ExcludeEvent(env: Env, st: State, k: EventKey): Outcome<State> {
    if k !in st.events then Failed
    else
      var ev := st.events[k];
      var slot := SlotOf(ev.facts);
      var st1 :- DismissDraftsOf(env, DropOverlay(st, slot, CategoryKind), IdentityOf(ev.calendar, ev.facts));
      var st2 := MarkExcluded(st1, slot);
      Done(st2.(reviews := map rk | rk in st2.reviews ::
                  if st2.reviews[rk].status == Open && st2.reviews[rk].event == k
                  then st2.reviews[rk].(status := Closed, action := Exclude) else st2.reviews[rk]))
  }
}
