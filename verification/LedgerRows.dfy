/** The minutes of a row: in every run from the empty ledger each row counts the whole minutes of its own span. */
module LedgerRows {
  import opened Wrappers
  import opened Intervals
  import opened Cutting
  import opened LedgerTypes
  import opened LedgerSpec
  import opened LedgerSteps
  import opened LedgerTheorems
  import opened LedgerUser
  import opened LedgerConfirm
  import opened LedgerDecisions
  import opened LedgerHistory

  predicate Timekept(te: TimeEntry) {
    te.minutes == Minutes(te.span)
  }

  /** Each row counts its own span, or the one it had before. */
  ghost predicate Counted(st: State, st': State) {
    forall x :: x in st'.entries ==>
      Timekept(st'.entries[x])
      || (x in st.entries && st'.entries[x].span == st.entries[x].span && st'.entries[x].minutes == st.entries[x].minutes)
  }

  lemma CountedTrans(a: State, b: State, c: State)
    requires Counted(a, b) && Counted(b, c)
    ensures Counted(a, c)
  {
    hide Minutes;
  }

  lemma CountedSame(st: State, st': State)
    requires st'.entries == st.entries
    ensures Counted(st, st')
  {
    hide Minutes;
  }

  lemma CountedPut(st: State, id: nat, te: TimeEntry)
    requires Timekept(te)
    ensures Counted(st, st.(entries := st.entries[id := te])) && Counted(st, CreateEntry(st, te))
  {
    hide Minutes;
  }

  // ── the parts of a sync ─────────────────────────────────────────────

  lemma DismissCounted(st: State, rows: seq<Row>, id: Identity)
    requires DismissLinked(st, rows, id).Done?
    ensures Counted(st, DismissLinked(st, rows, id).value)
  {
    hide Minutes, StaleDrafts;
  }

  lemma {:induction false} RefreshCounted(env: Env, st: State, inc: Incoming, rows: seq<Row>)
    requires Timed(inc.facts) && RefreshAll(env, st, inc, rows).Done?
    ensures Counted(st, RefreshAll(env, st, inc, rows).value)
  {
    hide Minutes, Counted, EffectiveCategory;
    if |rows| == 0 {
      CountedSame(st, st);
    } else {
      var (init, last) := (rows[..|rows| - 1], rows[|rows| - 1]);
      RefreshCounted(env, st, inc, init);
      var mid := RefreshAll(env, st, inc, init).value;
      var st' := RefreshOne(env, mid, inc, last).value;
      CountedSame(mid, mid);
      if st' != mid {
        CountedPut(mid, last.id, st'.entries[last.id]);
        assert st' == mid.(entries := mid.entries[last.id := st'.entries[last.id]]);
      }
      CountedTrans(st, mid, st');
    }
  }

  lemma {:induction false} ShrinkCounted(st: State, rows: seq<Row>, event: Interval)
    requires ShrinkAll(st, rows, event).Done?
    ensures Counted(st, ShrinkAll(st, rows, event).value)
  {
    hide Minutes, Counted, ShrinkOne;
    if |rows| == 0 {
      CountedSame(st, st);
    } else {
      ShrinkCounted(st, rows[..|rows| - 1], event);
      var mid := ShrinkAll(st, rows[..|rows| - 1], event).value;
      ShrinkOneCounted(mid, rows[|rows| - 1], event);
      CountedTrans(st, mid, ShrinkAll(st, rows, event).value);
    }
  }

  lemma ShrinkOneCounted(st: State, r: Row, event: Interval)
    requires ShrinkOne(st, r, event).Done?
    ensures Counted(st, ShrinkOne(st, r, event).value)
  {
    hide Minutes, Cutting.SplitAround;
  }

  lemma ManualCounted(env: Env, st: State, ev: Event)
    requires ConvertToManual(env, st, ev).Done?
    ensures Counted(st, ConvertToManual(env, st, ev).value)
  {
    hide Minutes, EffectiveCategory;
  }

  lemma SpawnCounted(env: Env, st: State, k: EventKey, payload: Payload, replace: bool)
    requires SpawnDriftDraft(env, st, k, payload, replace).Done?
    ensures Counted(st, SpawnDriftDraft(env, st, k, payload, replace).value)
  {
    hide Minutes, FirstConfirmed;
  }

  lemma DeletedCounted(env: Env, st: State, k: EventKey, action: Action)
    requires ApplyDeleted(env, st, k, action).Done?
    ensures Counted(st, ApplyDeleted(env, st, k, action).value)
  {
    hide Minutes, DismissLinked, ConvertToManual, Counted;
    var ev := st.events[k];
    var id := IdentityOf(ev.calendar, ev.facts);
    DismissCounted(st, env.listRows(st.entries), id);
    var st1 := DismissDraftsOf(env, st, id).value;
    var st' := ApplyDeleted(env, st, k, action).value;
    if action == KeepEntry {
      ManualCounted(env, st1, ev);
      var st2 := ConvertToManual(env, st1, ev).value;
      CountedSame(st2, st');
      CountedTrans(st, st1, st2);
      CountedTrans(st, st2, st');
    } else {
      CountedSame(st1, st');
      CountedTrans(st, st1, st');
    }
  }

  lemma DecisionCounted(env: Env, st: State, kind: ReviewKind, k: EventKey, payload: Payload, action: Action)
    requires Apply(env, st, kind, k, payload, action).Done?
    ensures Counted(st, Apply(env, st, kind, k, payload, action).value.0)
  {
    hide Minutes, Counted, ApplyDeleted, SpawnDriftDraft, ShrinkAll, Excluded;
    var st' := Apply(env, st, kind, k, payload, action).value.0;
    if kind == DeletedCategorized {
      DeletedCounted(env, st, k, action);
    } else if kind == SourceDrift && action != Dismiss {
      SpawnCounted(env, st, k, payload, action == Replace);
    } else if kind == NewInGap && action == UseEvent {
      var f := st.events[k].facts;
      ShrinkCounted(st, env.listRows(st.entries), Interval(f.start.value, f.end.value));
    } else {
      CountedSame(st, st');
    }
  }

  lemma NewCounted(env: Env, st: State, inc: Incoming, rows: seq<Row>)
    requires HandleNew(env, st, inc, rows).Done?
    ensures Counted(st, HandleNew(env, st, inc, rows).value.0)
  {
    hide Counted, Apply, AutoCategorize, Fingerprint;
    var (st1, _, skip) := OnNewEvent(env, st, inc, rows).value;
    NewEventCounted(env, st, inc, rows);
    AutoCategorizeStep(env, st1, inc);
    CountedSame(st1, HandleNew(env, st, inc, rows).value.0);
    CountedTrans(st, st1, HandleNew(env, st, inc, rows).value.0);
  }

  lemma NewEventCounted(env: Env, st: State, inc: Incoming, rows: seq<Row>)
    requires OnNewEvent(env, st, inc, rows).Done?
    ensures Counted(st, OnNewEvent(env, st, inc, rows).value.0)
  {
    hide Counted, Apply, Fingerprint;
    var k := IncKey(inc);
    var st' := OnNewEvent(env, st, inc, rows).value.0;
    var kind := if Fingerprint(inc.facts, rows) != [] then NewInGap else TentativeEvent;
    if st'.entries == st.entries {
      CountedSame(st, st');
    } else {
      var detail := if kind == NewInGap then GapPrint(Fingerprint(inc.facts, rows)) else StatusIs(inc.status);
      var (st1, action, _) := EnqueueOrReplay(st, ReviewKey(kind, IncIdentity(inc), detail), k, Titled(inc.facts.title));
      DecisionCounted(env, st1, kind, k, NoPayload, action);
      CountedSame(st, st1);
      CountedTrans(st, st1, st');
    }
  }

  lemma DeclinedCounted(env: Env, st: State, inc: Incoming)
    requires OnDeclined(env, st, inc).Done?
    ensures Counted(st, OnDeclined(env, st, inc).value.0)
  {
    hide Counted, Apply;
    var (k, rk) := (IncKey(inc), ReviewKey(DeletedCategorized, IncIdentity(inc), WasDeclined));
    var (st1, action, _) := EnqueueOrReplay(st, rk, k, Titled(inc.facts.title));
    var st' := OnDeclined(env, st, inc).value.0;
    CountedSame(st, st1);
    CountedSame(st, st);
    if inc.status == Declined && action == DropEntry {
      DecisionCounted(env, st1, DeletedCategorized, k, NoPayload, action);
      CountedTrans(st, st1, st');
    }
  }

  lemma ChangedCounted(env: Env, st: State, ex: Event, inc: Incoming, rows: seq<Row>)
    requires HandleChanged(env, st, ex, inc, rows).Done?
    ensures Counted(st, HandleChanged(env, st, ex, inc, rows).value.0)
  {
    hide Counted, OnDeclined, DriftedIds, LinkedAs, TitleMaterial, Categorized;
    var st' := HandleChanged(env, st, ex, inc, rows).value.0;
    var (st1, _) := OnConfirmedSourceDrift(st, inc, rows);
    CountedSame(st, st1);
    if st' != st1 {
      var (st2, _) := OnRetitled(env, st1, ex, inc);
      if OnDeclined(env, st2, inc).Done? { DeclinedCounted(env, st2, inc); }
      CountedSame(st, st2);
      CountedTrans(st, st2, st');
    }
  }

  lemma MaterializeCounted(env: Env, st: State, inc: Incoming, rows: seq<Row>, material: bool)
    requires Materialize(env, st, inc, rows, material).Done?
    ensures Counted(st, Materialize(env, st, inc, rows, material).value.0)
  {
    hide Minutes, Counted, DismissLinked, RefreshAll, LinkedAs, AllDismissed, Excluded, OpenTentative, EffectiveCategory;
    var (id, st') := (IncIdentity(inc), Materialize(env, st, inc, rows, material).value.0);
    if !Timed(inc.facts) {
      CountedSame(st, st);
    } else if Excluded(st, SlotOf(inc.facts)) {
      DismissCounted(st, rows, id);
    } else if NeedsAnswer(inc.status) && OpenTentative(st, IncKey(inc)) {
      CountedSame(st, st);
    } else if LinkedAs(rows, id, Confirmed) || LinkedAs(rows, id, Draft) {
      RefreshCounted(env, st, inc, rows);
    } else if AllDismissed(rows, id) && !material {
      BumpCounted(st, LinkedIds(rows, id), Hash(inc.facts));
    } else {
      CountedPut(st, st.nextEntry, ProposalOf(env, inc, EffectiveCategory(st, SlotOf(inc.facts))));
    }
  }

  lemma BumpCounted(st: State, ids: set<nat>, rev: Revision)
    ensures Counted(st, BumpRevisions(st, ids, rev))
  {
    hide Minutes;
  }

  lemma PullOneCounted(env: Env, base: map<EventKey, Event>, inc: Incoming, s: Sync)
    requires PullOne(env, base, inc, s).Done?
    ensures Counted(s.st, PullOne(env, base, inc, s).value.st)
  {
    hide Counted, HandleNew, HandleChanged, Materialize, TitleMaterial, IncludeDropped;
    var k := IncKey(inc);
    var st0 := UpsertEvent(s.st, inc);
    CountedSame(s.st, st0);
    if k !in base {
      NewCounted(env, st0, inc, s.rows);
      var (st1, _) := HandleNew(env, st0, inc, s.rows).value;
      MaterializeCounted(env, st1, inc, s.rows, false);
      CountedTrans(s.st, st0, st1);
      CountedTrans(s.st, st1, PullOne(env, base, inc, s).value.st);
    } else if base[k].facts == inc.facts {
      MaterializeCounted(env, s.st, inc, s.rows, false);
    } else {
      ChangedCounted(env, st0, base[k], inc, s.rows);
      var (st1, _) := HandleChanged(env, st0, base[k], inc, s.rows).value;
      MaterializeCounted(env, st1, inc, s.rows, TitleMaterial(env, base[k], inc) || IncludeDropped(base[k], inc));
      CountedTrans(s.st, st0, st1);
      CountedTrans(s.st, st1, PullOne(env, base, inc, s).value.st);
    }
  }

  lemma {:induction false} PullAllCounted(env: Env, base: map<EventKey, Event>, pull: seq<Incoming>, s: Sync)
    requires PullAll(env, base, pull, s).Done?
    ensures Counted(s.st, PullAll(env, base, pull, s).value.st)
  {
    hide Counted, PullOne;
    if |pull| == 0 {
      CountedSame(s.st, s.st);
    } else {
      PullAllCounted(env, base, pull[..|pull| - 1], s);
      var mid := PullAll(env, base, pull[..|pull| - 1], s).value;
      PullOneCounted(env, base, pull[|pull| - 1], mid);
      CountedTrans(s.st, mid.st, PullAll(env, base, pull, s).value.st);
    }
  }

  lemma VanishOneCounted(env: Env, seen: set<EventKey>, ev: Event, s: Sync)
    requires VanishOne(env, seen, ev, s).Done?
    ensures Counted(s.st, VanishOne(env, seen, ev, s).value.st)
  {
    hide Counted, Apply, Excluded, Categorized, ConfirmedIds, DeletedPayload;
    var (k, rk) := (KeyOf(ev.calendar, ev.facts), ReviewKey(DeletedCategorized, IdentityOf(ev.calendar, ev.facts), WasDeleted));
    var st' := VanishOne(env, seen, ev, s).value.st;
    var (st1, action, _) := EnqueueOrReplay(s.st, rk, k, Titled(ev.facts.title));
    CountedSame(s.st, st1);
    if st'.entries == s.st.entries {
      CountedSame(s.st, st');
    } else {
      DecisionCounted(env, st1, DeletedCategorized, k, NoPayload, action);
      CountedTrans(s.st, st1, st');
    }
  }

  lemma {:induction false} VanishAllCounted(env: Env, seen: set<EventKey>, gone: seq<Event>, s: Sync)
    requires VanishAll(env, seen, gone, s).Done?
    ensures Counted(s.st, VanishAll(env, seen, gone, s).value.st)
  {
    hide Counted, VanishOne;
    if |gone| == 0 {
      CountedSame(s.st, s.st);
    } else {
      VanishAllCounted(env, seen, gone[..|gone| - 1], s);
      var mid := VanishAll(env, seen, gone[..|gone| - 1], s).value;
      VanishOneCounted(env, seen, gone[|gone| - 1], mid);
      CountedTrans(s.st, mid.st, VanishAll(env, seen, gone, s).value.st);
    }
  }

  lemma SyncCounted(env: Env, st: State, pull: seq<Incoming>)
    requires env.Valid() && SyncEvents(env, st, pull).Done?
    ensures Counted(st, SyncEvents(env, st, pull).value.0)
  {
    hide Counted, PullAll, VanishAll, BaseEvents;
    PullAllCounted(env, st.events, pull, Start(env, st));
    var s1 := PullAll(env, st.events, pull, Start(env, st)).value;
    VanishAllCounted(env, Keys(pull), BaseEvents(env, st.events), s1);
    CountedTrans(st, s1.st, SyncEvents(env, st, pull).value.0);
  }

  // ── every step ──────────────────────────────────────────────────────

  lemma ResolveCounted(env: Env, st: State, rk: ReviewKey, action: Action)
    requires ResolveReview(env, st, rk, action).Done?
    ensures Counted(st, ResolveReview(env, st, rk, action).value)
  {
    hide Counted, Apply;
    var item := st.reviews[rk];
    DecisionCounted(env, st, rk.kind, item.event, item.payload, action);
    var st1 := Apply(env, st, rk.kind, item.event, item.payload, action).value.0;
    CountedSame(st1, ResolveReview(env, st, rk, action).value);
    CountedTrans(st, st1, ResolveReview(env, st, rk, action).value);
  }

  lemma ExcludeCounted(env: Env, st: State, k: EventKey)
    requires ExcludeEvent(env, st, k).Done?
    ensures Counted(st, ExcludeEvent(env, st, k).value)
  {
    hide Counted, DismissLinked;
    var ev := st.events[k];
    var st0 := DropOverlay(st, SlotOf(ev.facts), CategoryKind);
    var id := IdentityOf(ev.calendar, ev.facts);
    DismissCounted(st0, env.listRows(st0.entries), id);
    var st1 := DismissDraftsOf(env, st0, id).value;
    CountedSame(st, st0);
    CountedSame(st1, ExcludeEvent(env, st, k).value);
    CountedTrans(st, st0, st1);
    CountedTrans(st, st1, ExcludeEvent(env, st, k).value);
  }

  lemma PieceTimekept(te: TimeEntry, zone: Zone, piece: Interval, a: Attestation)
    ensures Timekept(PieceOf(te, zone, piece, a))
  {
    hide Minutes;
  }

  lemma ConfirmCounted(env: Env, st: State, id: nat, policy: Overnight, resolution: Resolution)
    requires env.Valid() && WellFormed(st)
    ensures Counted(st, ConfirmEntry(env, st, id, policy, resolution).st)
  {
    ConfirmKeepsRest(env, st, id, policy, resolution);
    var st' := ConfirmEntry(env, st, id, policy, resolution).st;
    hide Minutes, ConfirmEntry, Timekept, PieceOf, Clashes;
    forall x | x in st'.entries && x !in st.entries ensures Timekept(st'.entries[x]) {
      PieceTimekept(st.entries[id], env.zoneOf(st.entries[id].day), st'.entries[x].span, Confirmed);
    }
  }

  lemma {:induction false} PiecesCounted(st: State, te: TimeEntry, zone: Zone, pieces: seq<Interval>, a: Attestation)
    ensures Counted(st, CreatePieces(st, te, zone, pieces, a))
  {
    hide Minutes, Counted;
    if |pieces| == 0 {
      CountedSame(st, st);
    } else {
      var mid := CreatePieces(st, te, zone, pieces[..|pieces| - 1], a);
      PiecesCounted(st, te, zone, pieces[..|pieces| - 1], a);
      CountedPut(mid, mid.nextEntry, PieceOf(te, zone, pieces[|pieces| - 1], a));
      CountedTrans(st, mid, CreatePieces(st, te, zone, pieces, a));
    }
  }

  lemma SplitCounted(env: Env, st: State, id: nat, cuts: seq<int>)
    ensures Counted(st, SplitEntry(env, st, id, cuts).st)
  {
    hide Minutes, CreatePieces, CutPieces, GoodCuts;
    var st' := SplitEntry(env, st, id, cuts).st;
    if SplitEntry(env, st, id, cuts).ok {
      var te := st.entries[id];
      PiecesCounted(st, te, env.zoneOf(te.day), CutPieces(te.span.start, cuts, te.span.end), Draft);
    }
  }

  lemma EditCounted(env: Env, st: State, step: Step)
    requires env.Valid() && !step.Pull? && !step.Resolve? && !step.ExcludeEv? && !step.Confirm? && !step.Split?
    ensures Counted(st, Next(env, st, step))
  {
    hide SyncEvents, ResolveReview, ExcludeEvent, ConfirmEntry, SplitEntry, Minutes, LinkedAs, EffectiveCategory, Excluded;
  }

  lemma StepCounted(env: Env, st: State, step: Step)
    requires env.Valid() && WellFormed(st)
    ensures Counted(st, Next(env, st, step))
  {
    hide SyncEvents, ResolveReview, ExcludeEvent, ConfirmEntry, SplitEntry, Counted, WellFormed, ConvertAllDay, SetCalendarActive;
    CountedSame(st, st);
    match step
    case Pull(pull) => if SyncEvents(env, st, pull).Done? { SyncCounted(env, st, pull); }
    case Resolve(rk, action) => if ResolveReview(env, st, rk, action).Done? { ResolveCounted(env, st, rk, action); }
    case ExcludeEv(k) => if ExcludeEvent(env, st, k).Done? { ExcludeCounted(env, st, k); }
    case Confirm(id, policy, resolution) => ConfirmCounted(env, st, id, policy, resolution);
    case Split(id, cuts) => SplitCounted(env, st, id, cuts);
    case _ => EditCounted(env, st, step);
  }

  /** In every run from the empty ledger, whatever is pulled, decided, confirmed, split or edited, each row's
      minutes are the whole minutes of its span. */
  lemma {:induction false} RunTimekept(states: seq<State>, envs: seq<Env>, steps: seq<Step>, i: nat)
    requires Run(states, envs, steps) && states[0] == EMPTY && i < |states|
    ensures forall x :: x in states[i].entries ==> states[i].entries[x].minutes == Minutes(states[i].entries[x].span)
  {
    hide WellFormed, Next, Counted, Minutes;
    if i > 0 {
      RunTimekept(states, envs, steps, i - 1);
      EmptyWellFormed();
      RunWellFormed(states, envs, steps, i - 1);
      assert states[i - 1 + 1] == Next(envs[i - 1], states[i - 1], steps[i - 1]);
      StepCounted(envs[i - 1], states[i - 1], steps[i - 1]);
      TimekeptNext(states[i - 1], states[i]);
    }
  }

  lemma TimekeptNext(a: State, b: State)
    requires Counted(a, b) && forall x :: x in a.entries ==> a.entries[x].minutes == Minutes(a.entries[x].span)
    ensures forall x :: x in b.entries ==> b.entries[x].minutes == Minutes(b.entries[x].span)
  {
    hide Minutes;
  }
}
