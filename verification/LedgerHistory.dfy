/** Runs of the ledger: every interleaving, in sequence, of syncs and user steps, each in its own
    environment. */
module LedgerHistory {
  import opened Wrappers
  import opened Intervals
  import opened Cutting
  import opened LedgerTypes
  import opened LedgerSpec
  import opened LedgerSteps
  import opened LedgerDrafts
  import opened LedgerSync
  import opened LedgerRuns
  import opened LedgerTheorems
  import opened LedgerUser
  import opened LedgerConfirm
  import opened LedgerDecisions

  datatype Step =
    | Pull(pull: seq<Incoming>)
    | Resolve(item: ReviewKey, action: Action)
    | ExcludeEv(event: EventKey)
    | Confirm(id: nat, policy: Overnight, resolution: Resolution)
    | Reject(id: nat)
    | Split(id: nat, cuts: seq<int>)
    | Adjust(id: nat, edit: Edit)
    | Update(id: nat, edit: Edit)
    | Create(edit: Edit, gap: bool)
    | Delete(id: nat)
    | Convert(event: EventKey, edit: Edit)
    | SetActive(calendar: int, active: bool)

  function OrUnchanged(st: State, o: Outcome<State>): State {
    if o.Done? then o.value else st
  }

  function SetCalendarActive(st: State, calendar: int, active: bool): State {
    st.(events := map k | k in st.events ::
          if st.events[k].calendar == calendar then st.events[k].(active := active) else st.events[k])
  }

  ghost function Next(env: Env, st: State, step: Step): State
    requires env.Valid()
  {
    match step
    case Pull(pull) =>
      var o := SyncEvents(env, st, pull);
      if o.Done? then o.value.0 else st
    case Resolve(item, action) => OrUnchanged(st, ResolveReview(env, st, item, action))
    case ExcludeEv(event) => OrUnchanged(st, ExcludeEvent(env, st, event))
    case Confirm(id, policy, resolution) => ConfirmEntry(env, st, id, policy, resolution).st
    case Reject(id) => RejectEntry(st, id).st
    case Split(id, cuts) => SplitEntry(env, st, id, cuts).st
    case Adjust(id, edit) => AdjustDraft(st, id, edit).st
    case Update(id, edit) => UpdateEntry(st, id, edit).st
    case Create(edit, gap) => CreateManual(st, edit, gap).st
    case Delete(id) => RemoveEntry(st, id).st
    case Convert(event, edit) => ConvertAllDay(env, st, event, edit).st
    case SetActive(calendar, active) => SetCalendarActive(st, calendar, active)
  }

  /** While a row exists its provenance is fixed and its attestation moves only away from draft; row
      ids are never reused. */
  predicate RowFate(a: TimeEntry, b: TimeEntry) {
    b.source == a.source && (a.attestation != Draft ==> b.attestation == a.attestation)
  }

  ghost predicate Later(st: State, st': State) {
    && st.nextEntry <= st'.nextEntry
    && (forall x :: x in st.entries && x in st'.entries ==> RowFate(st.entries[x], st'.entries[x]))
    && (forall x :: x in st'.entries && x !in st.entries ==> st.nextEntry <= x)
  }

  lemma LaterTrans(a: State, b: State, c: State)
    requires WellFormed(a) && Later(a, b) && Later(b, c)
    ensures Later(a, c)
  {
  }

  /** How review items may change in one step: only a sync reopens one, and only source drift; only a
      sync removes items, those of the events it deletes. */
  ghost predicate ItemsStep(st: State, st': State, sync: bool) {
    && (forall rk :: rk in st.reviews && rk in st'.reviews && st.reviews[rk].status != Open && st'.reviews[rk].status == Open
          ==> sync && rk.kind == SourceDrift)
    && (forall rk :: rk in st.reviews && rk !in st'.reviews ==> sync && IdentityKey(rk.identity) !in st'.events)
  }

  /** The confirmed rows a step is entitled to touch. */
  predicate MayTouch(st: State, step: Step, x: nat)
    requires x in st.entries
  {
    match step
    case Resolve(item, action) => item.kind == NewInGap && action == UseEvent
    case Confirm(id, _, resolution) =>
      resolution == KeepMine && id in st.entries && Clashes(Row(x, st.entries[x]), id, st.entries[id].span)
    case Update(id, _) => id == x
    case Delete(id) => id == x
    case _ => false
  }

  ghost predicate ConfirmedKept(st: State, st': State, step: Step) {
    forall x :: x in st.entries && st.entries[x].attestation == Confirmed && !MayTouch(st, step, x)
      ==> x in st'.entries && st'.entries[x] == st.entries[x]
  }

  ghost predicate StepEffect(st: State, st': State, step: Step) {
    WellFormed(st') && Later(st, st') && ItemsStep(st, st', step.Pull?) && ConfirmedKept(st, st', step)
  }

  lemma NoEffect(st: State, step: Step)
    requires WellFormed(st)
    ensures StepEffect(st, st, step)
  {
  }

  lemma EntriesStepEffect(st: State, st': State, k: EventKey, step: Step)
    requires WellFormed(st) && WellFormed(st') && EntriesStep(st, st', k) && ItemsStep(st, st', step.Pull?)
    ensures StepEffect(st, st', step)
  {
  }

  /** A step that leaves the events and the review items alone. */
  lemma RowsOnly(st: State, st': State, step: Step)
    requires WellFormed(st) && st' == st.(entries := st'.entries, nextEntry := st'.nextEntry) && Later(st, st')
    requires forall x :: x in st'.entries ==> x < st'.nextEntry
    requires ConfirmedKept(st, st', step)
    ensures StepEffect(st, st', step)
  {
  }

  // ── sync ────────────────────────────────────────────────────────────

  lemma PullStep(env: Env, st: State, step: Step)
    requires env.Valid() && WellFormed(st) && step.Pull?
    ensures StepEffect(st, Next(env, st, step), step)
  {
    hide WellFormed, SyncEvents, ResolveReview, ConfirmEntry, SplitEntry, ConvertAllDay, ExcludeEvent, SetCalendarActive, StepEffect;
    NoEffect(st, step);
    if SyncEvents(env, st, step.pull).Done? {
      SyncKeepsRows(env, st, step.pull);
      SyncKeepsItems(env, st, step.pull);
      PulledEffect(st, SyncEvents(env, st, step.pull).value.0, step);
    }
  }

  lemma PulledEffect(st: State, st': State, step: Step)
    requires WellFormed(st') && st.nextEntry <= st'.nextEntry && step.Pull? && ItemsFate(st, st')
    requires forall x :: x in st.entries ==> x in st'.entries && EntryStep(st.entries[x], st'.entries[x])
    requires forall x :: x in st'.entries && x !in st.entries ==> st.nextEntry <= x
    ensures StepEffect(st, st', step)
  {
    hide WellFormed;
  }

  // ── resolving a review item ─────────────────────────────────────────

  /** Rows may be cut, removed or added, as `use_event` does. */
  lemma {:induction false} ShrinkLater(st: State, rows: seq<Row>, event: Interval)
    requires WellFormed(st) && ShrinkAll(st, rows, event).Done?
    ensures var st' := ShrinkAll(st, rows, event).value;
            && st' == st.(entries := st'.entries, nextEntry := st'.nextEntry)
            && WellFormed(st') && Later(st, st')
  {
    if |rows| > 0 {
      var mid := ShrinkAll(st, rows[..|rows| - 1], event).value;
      ShrinkLater(st, rows[..|rows| - 1], event);
      ShrinkOneLater(mid, rows[|rows| - 1], event);
      hide WellFormed, ShrinkOne;
      LaterTrans(st, mid, ShrinkAll(st, rows, event).value);
    }
  }

  lemma PutLater(st: State, id: nat, te: TimeEntry)
    requires WellFormed(st) && id in st.entries && RowFate(st.entries[id], te)
    ensures WellFormed(st.(entries := st.entries[id := te])) && Later(st, st.(entries := st.entries[id := te]))
  {
  }

  lemma AddLater(st: State, te: TimeEntry)
    requires WellFormed(st)
    ensures WellFormed(CreateEntry(st, te)) && Later(st, CreateEntry(st, te))
  {
  }

  lemma DropLater(st: State, id: nat)
    requires WellFormed(st)
    ensures WellFormed(st.(entries := st.entries - {id})) && Later(st, st.(entries := st.entries - {id}))
  {
  }

  lemma SelfLater(st: State)
    ensures Later(st, st)
  {
  }

  lemma ShrinkOneLater(st: State, r: Row, event: Interval)
    requires WellFormed(st) && ShrinkOne(st, r, event).Done?
    ensures var st' := ShrinkOne(st, r, event).value;
            && st' == st.(entries := st'.entries, nextEntry := st'.nextEntry)
            && WellFormed(st') && Later(st, st')
  {
    hide Cutting.SplitAround, WellFormed, Later, Minutes;
    var a := Cutting.SplitAround(r.te.span, event);
    SelfLater(st);
    if a.overlap.Some? {
      if a.before.Some? {
        PutLater(st, r.id, WithSpan(st.entries[r.id], a.before.value));
        if a.after.Some? {
          var st1 := st.(entries := st.entries[r.id := WithSpan(st.entries[r.id], a.before.value)]);
          AddLater(st1, WithSpan(r.te, a.after.value));
          LaterTrans(st, st1, CreateEntry(st1, WithSpan(r.te, a.after.value)));
        }
      } else if a.after.Some? {
        PutLater(st, r.id, WithSpan(st.entries[r.id], a.after.value));
      } else {
        DropLater(st, r.id);
      }
    }
  }

  /** What applying a decision may do to the tables before the item itself is closed. */
  ghost predicate Applied(st: State, st': State, rk: ReviewKey, action: Action) {
    && WellFormed(st') && Later(st, st') && st'.events == st.events && st'.reviews == st.reviews
    && (!(rk.kind == NewInGap && action == UseEvent) ==>
          forall x :: x in st.entries && st.entries[x].attestation == Confirmed ==> x in st'.entries && st'.entries[x] == st.entries[x])
  }

  lemma AppliedByStep(st: State, st': State, rk: ReviewKey, action: Action, k: EventKey)
    requires WellFormed(st) && WellFormed(st') && EntriesStep(st, st', k) && st'.events == st.events && st'.reviews == st.reviews
    ensures Applied(st, st', rk, action)
  {
  }

  lemma AppliedOverlay(st: State, st': State, rk: ReviewKey, action: Action)
    requires WellFormed(st) && st' == st.(overlays := st'.overlays)
    ensures Applied(st, st', rk, action)
  {
  }

  lemma DeletedApplied(env: Env, st: State, rk: ReviewKey, action: Action)
    requires env.Valid() && WellFormed(st) && rk in st.reviews
    requires ApplyDeleted(env, st, st.reviews[rk].event, action).Done?
    ensures Applied(st, ApplyDeleted(env, st, st.reviews[rk].event, action).value, rk, action)
  {
    var k := st.reviews[rk].event;
    assert k in st.events;
    var st' := ApplyDeleted(env, st, k, action).value;
    assert action == KeepEntry || action == DropEntry;
    if action == KeepEntry { KeepEntryStep(env, st, k); } else { DropEntryStep(env, st, k); }
    assert Retired(st, st', k);
    hide WellFormed, EntriesStep, ApplyDeleted, Excluded, Categorized, Applied;
    AppliedByStep(st, st', rk, action, k);
  }

  lemma GapApplied(env: Env, st: State, rk: ReviewKey, action: Action)
    requires env.Valid() && WellFormed(st) && rk in st.reviews && rk.kind == NewInGap
    requires ApplyNewInGap(env, st, st.reviews[rk].event, action).Done?
    ensures Applied(st, ApplyNewInGap(env, st, st.reviews[rk].event, action).value, rk, action)
  {
    var k := st.reviews[rk].event;
    var st' := ApplyNewInGap(env, st, k, action).value;
    var ev := st.events[k];
    if action == UseEvent {
      hide WellFormed;
      ShrinkLater(st, env.listRows(st.entries), Interval(ev.facts.start.value, ev.facts.end.value));
    } else {
      AppliedOverlay(st, st', rk, action);
    }
  }

  lemma DriftApplied(env: Env, st: State, rk: ReviewKey, action: Action, replace: bool)
    requires env.Valid() && WellFormed(st) && rk in st.reviews
    requires SpawnDriftDraft(env, st, st.reviews[rk].event, st.reviews[rk].payload, replace).Done?
    ensures Applied(st, SpawnDriftDraft(env, st, st.reviews[rk].event, st.reviews[rk].payload, replace).value, rk, action)
  {
    hide FirstConfirmed, Minutes;
  }

  lemma DecisionApplied(env: Env, st: State, rk: ReviewKey, action: Action)
    requires env.Valid() && WellFormed(st) && rk in st.reviews
    requires Apply(env, st, rk.kind, st.reviews[rk].event, st.reviews[rk].payload, action).Done?
    ensures var (st', status) := Apply(env, st, rk.kind, st.reviews[rk].event, st.reviews[rk].payload, action).value;
            Applied(st, st', rk, action) && status != Open
  {
    hide WellFormed, Applied, ApplyDeleted, ApplyNewInGap, SpawnDriftDraft;
    var k := st.reviews[rk].event;
    AppliedOverlay(st, st, rk, action);
    match rk.kind
    case DeletedCategorized => DeletedApplied(env, st, rk, action);
    case NewInGap => GapApplied(env, st, rk, action);
    case TentativeEvent => IncludeApplied(env, st, rk, action);
    case AllDayEvent => IncludeApplied(env, st, rk, action);
    case SourceDrift =>
      if action == SpawnDraft || action == Replace { DriftApplied(env, st, rk, action, action == Replace); }
    case _ =>
  }

  lemma IncludeApplied(env: Env, st: State, rk: ReviewKey, action: Action)
    requires WellFormed(st) && rk in st.reviews
    requires ApplyIncludeExclude(st, rk.kind, st.reviews[rk].event, action).Done?
    ensures Applied(st, ApplyIncludeExclude(st, rk.kind, st.reviews[rk].event, action).value, rk, action)
  {
    hide WellFormed, Applied;
    AppliedOverlay(st, ApplyIncludeExclude(st, rk.kind, st.reviews[rk].event, action).value, rk, action);
  }

  lemma CloseItem(st: State, st1: State, rk: ReviewKey, action: Action, item: Review, step: Step)
    requires WellFormed(st) && Applied(st, st1, rk, action) && rk in st.reviews && step == Resolve(rk, action)
    requires item.event == st.reviews[rk].event && item.status != Open
    ensures StepEffect(st, st1.(reviews := st1.reviews[rk := item]), step)
  {
    hide RowFate, KeyOf, IdentityKey;
  }

  lemma ResolveStep(env: Env, st: State, step: Step)
    requires env.Valid() && WellFormed(st) && step.Resolve?
    ensures StepEffect(st, Next(env, st, step), step)
  {
    var (rk, action) := (step.item, step.action);
    hide WellFormed, StepEffect, Apply;
    NoEffect(st, step);
    if rk in st.reviews && st.reviews[rk].status == Open {
      var item := st.reviews[rk];
      var o := Apply(env, st, rk.kind, item.event, item.payload, action);
      if o.Done? {
        DecisionApplied(env, st, rk, action);
        CloseItem(st, o.value.0, rk, action, item.(status := o.value.1, action := action), step);
      }
    }
  }

  // ── excluding an event ──────────────────────────────────────────────

  lemma ExcludeRows(env: Env, st: State, k: EventKey) returns (id: Identity, st': State)
    requires env.Valid() && WellFormed(st) && k in st.events
    ensures var ev := st.events[k];
            && DismissDraftsOf(env, DropOverlay(st, SlotOf(ev.facts), CategoryKind), IdentityOf(ev.calendar, ev.facts)) == Done(st')
            && id == IdentityOf(ev.calendar, ev.facts) && EntriesStep(st, st', k) && WellFormed(st')
            && st' == st.(entries := st'.entries, overlays := st'.overlays)
  {
    var ev := st.events[k];
    id := IdentityOf(ev.calendar, ev.facts);
    var st0 := DropOverlay(st, SlotOf(ev.facts), CategoryKind);
    ListingTracks(env, st0);
    DismissStep(st0, env.listRows(st0.entries), id);
    st' := DismissDraftsOf(env, st0, id).value;
    assert IdentityKey(id) == k;
    assert EntriesStep(st0, st', k) ==> EntriesStep(st, st', k) by { hide EntryStep; }
  }

  lemma ExcludeStep(env: Env, st: State, step: Step)
    requires env.Valid() && WellFormed(st) && step.ExcludeEv?
    ensures StepEffect(st, Next(env, st, step), step)
  {
    hide SyncEvents, ResolveReview, ConfirmEntry, SplitEntry, ConvertAllDay, DismissDraftsOf, WellFormed, StepEffect, EntriesStep;
    var k := step.event;
    NoEffect(st, step);
    if k in st.events {
      var id, st1 := ExcludeRows(env, st, k);
      var st' := Next(env, st, step);
      assert st' == st1.(overlays := st'.overlays, reviews := st'.reviews);
      SameRows(st, st1, st', k);
      EntriesStepEffect(st, st', k, step);
    }
  }

  lemma SameRows(st: State, st1: State, st': State, k: EventKey)
    requires EntriesStep(st, st1, k) && WellFormed(st1) && st' == st1.(overlays := st'.overlays, reviews := st'.reviews)
    requires forall rk :: rk in st'.reviews ==> rk in st1.reviews && st'.reviews[rk].event == st1.reviews[rk].event
    ensures EntriesStep(st, st', k) && WellFormed(st')
  {
  }

  // ── user steps on rows ──────────────────────────────────────────────

  lemma ConfirmRowStep(env: Env, st: State, step: Step)
    requires env.Valid() && WellFormed(st) && step.Confirm?
    ensures StepEffect(st, Next(env, st, step), step)
  {
    var (id, resolution) := (step.id, step.resolution);
    ConfirmKeepsRest(env, st, id, step.policy, resolution);
    assert forall x :: x in st.entries ==> x < st.nextEntry;
    var r := ConfirmEntry(env, st, id, step.policy, resolution);
    hide WellFormed, ConfirmEntry, StepEffect, PieceOf, Clashes;
    RowsOnly(st, r.st, step);
  }

  lemma SplitRowStep(env: Env, st: State, step: Step)
    requires env.Valid() && WellFormed(st) && step.Split?
    ensures StepEffect(st, Next(env, st, step), step)
  {
    hide SyncEvents, ResolveReview, ConfirmEntry, SplitEntry, ConvertAllDay, ExcludeEvent, SetCalendarActive, StepEffect, WellFormed, Tiles, SumMinutes, WholeMinutes, GoodCuts, SplitInto;
    SplitConserves(env, st, step.id, step.cuts);
    NoEffect(st, step);
    var r := SplitEntry(env, st, step.id, step.cuts);
    if r.ok {
      var pieces: seq<Interval> :| SplitInto(st, r.st, step.id, env.zoneOf(st.entries[step.id].day), pieces);
      SplitRows(env, st, step, pieces, r.st);
    }
  }

  lemma SplitRows(env: Env, st: State, step: Step, pieces: seq<Interval>, st': State)
    requires WellFormed(st) && step.Split? && step.id in st.entries && st.entries[step.id].attestation == Draft
    requires SplitInto(st, st', step.id, env.zoneOf(st.entries[step.id].day), pieces)
    ensures StepEffect(st, st', step)
  {
    assert forall x :: x in st.entries ==> x < st.nextEntry;
    hide StepEffect, PieceOf, Minutes;
    RowsOnly(st, st', step);
  }

  lemma PutRow(st: State, id: nat, te: TimeEntry, step: Step)
    requires WellFormed(st) && id in st.entries && RowFate(st.entries[id], te)
    requires st.entries[id].attestation == Confirmed ==> MayTouch(st, step, id)
    ensures StepEffect(st, st.(entries := st.entries[id := te]), step)
  {
    hide MayTouch, StepEffect;
    RowsOnly(st, st.(entries := st.entries[id := te]), step);
  }

  lemma EditStep(env: Env, st: State, step: Step)
    requires env.Valid() && WellFormed(st) && (step.Reject? || step.Adjust? || step.Update?)
    ensures StepEffect(st, Next(env, st, step), step)
  {
    hide SyncEvents, ResolveReview, ConfirmEntry, SplitEntry, ConvertAllDay, ExcludeEvent, SetCalendarActive, StepEffect, WellFormed;
    NoEffect(st, step);
    if step.Reject? {
      if RejectEntry(st, step.id).ok { PutRow(st, step.id, st.entries[step.id].(attestation := Dismissed), step); }
    } else if step.id in st.entries && (step.Adjust? ==> st.entries[step.id].attestation == Draft) {
      PutRow(st, step.id, Edited(st.entries[step.id], step.edit), step);
    }
  }

  lemma AddDropStep(env: Env, st: State, step: Step)
    requires env.Valid() && WellFormed(st) && (step.Create? || step.Delete?)
    ensures StepEffect(st, Next(env, st, step), step)
  {
    hide SyncEvents, ResolveReview, ConfirmEntry, SplitEntry, ConvertAllDay, ExcludeEvent, SetCalendarActive, StepEffect;
    RowsOnly(st, Next(env, st, step), step);
  }

  lemma ConvertStep(env: Env, st: State, step: Step)
    requires env.Valid() && WellFormed(st) && step.Convert?
    ensures StepEffect(st, Next(env, st, step), step)
  {
    hide SyncEvents, ResolveReview, ConfirmEntry, SplitEntry, ExcludeEvent, SetCalendarActive, StepEffect, Clashes, Minutes;
    RowsOnly(st, Next(env, st, step), step);
  }

  lemma ActiveStep(env: Env, st: State, step: Step)
    requires env.Valid() && WellFormed(st) && step.SetActive?
    ensures StepEffect(st, Next(env, st, step), step)
  {
  }

  /** Every step keeps the ledger well-formed and moves attestations only away from draft; only a sync
      reopens or removes review items; and confirmed rows change only where the step may touch them. */
  lemma EveryStep(env: Env, st: State, step: Step)
    requires env.Valid() && WellFormed(st)
    ensures StepEffect(st, Next(env, st, step), step)
  {
    hide WellFormed, StepEffect, Next;
    match step
    case Pull(_) => PullStep(env, st, step);
    case Resolve(_, _) => ResolveStep(env, st, step);
    case ExcludeEv(_) => ExcludeStep(env, st, step);
    case Confirm(_, _, _) => ConfirmRowStep(env, st, step);
    case Split(_, _) => SplitRowStep(env, st, step);
    case Convert(_, _) => ConvertStep(env, st, step);
    case SetActive(_, _) => ActiveStep(env, st, step);
    case Create(_, _) => AddDropStep(env, st, step);
    case Delete(_) => AddDropStep(env, st, step);
    case _ => EditStep(env, st, step);
  }

  // ── runs ────────────────────────────────────────────────────────────

  ghost predicate Run(states: seq<State>, envs: seq<Env>, steps: seq<Step>) {
    && |states| == |steps| + 1 && |envs| == |steps|
    && (forall i :: 0 <= i < |steps| ==> envs[i].Valid() && states[i + 1] == Next(envs[i], states[i], steps[i]))
  }

  const EMPTY := State(map[], map[], map[], 0, map[])

  lemma {:induction false} RunWellFormed(states: seq<State>, envs: seq<Env>, steps: seq<Step>, i: nat)
    requires Run(states, envs, steps) && WellFormed(states[0]) && i < |states|
    ensures WellFormed(states[i])
  {
    hide WellFormed, Next, Later, ItemsStep, ConfirmedKept;
    if i > 0 {
      RunWellFormed(states, envs, steps, i - 1);
      EveryStep(envs[i - 1], states[i - 1], steps[i - 1]);
      assert states[i - 1 + 1] == Next(envs[i - 1], states[i - 1], steps[i - 1]);
    }
  }

  /** Over any stretch of any run from the empty ledger: a row present at both ends was there all along,
      its provenance is fixed, and its attestation moved at most once, from draft to confirmed or to
      dismissed. */
  lemma {:induction false} RunKeepsRows(states: seq<State>, envs: seq<Env>, steps: seq<Step>, i: nat, j: nat)
    requires Run(states, envs, steps) && states[0] == EMPTY && i <= j < |states|
    ensures WellFormed(states[j]) && Later(states[i], states[j])
    ensures forall x, k :: x in states[i].entries && x in states[j].entries && i <= k <= j ==> x in states[k].entries
  {
    hide WellFormed, Next, Later, RowFate;
    EmptyWellFormed();
    RunWellFormed(states, envs, steps, i);
    RunWellFormed(states, envs, steps, j);
    SelfLater(states[i]);
    if i < j {
      RunKeepsRows(states, envs, steps, i, j - 1);
      assert states[j - 1 + 1] == Next(envs[j - 1], states[j - 1], steps[j - 1]);
      RunWellFormed(states, envs, steps, j - 1);
      EveryStep(envs[j - 1], states[j - 1], steps[j - 1]);
      RowsBetween(states[i], states[j - 1], states[j]);
      LaterTrans(states[i], states[j - 1], states[j]);
    }
  }

  lemma EmptyWellFormed()
    ensures WellFormed(EMPTY)
  {
  }

  lemma RowsBetween(a: State, b: State, c: State)
    requires WellFormed(a) && Later(a, b) && Later(b, c)
    ensures forall x :: x in a.entries && x in c.entries ==> x in b.entries
  {
  }
}
