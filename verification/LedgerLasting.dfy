/** How long an exclusion lasts: over every run, until an answer about an all-day event of the slot lifts it, and
    every sync that pulls an excluded event leaves it without a live draft. */
module LedgerLasting {
  import opened Wrappers
  import opened Intervals
  import opened Cutting
  import opened LedgerTypes
  import opened LedgerSpec
  import opened LedgerSteps
  import opened LedgerDrafts
  import opened LedgerSync
  import opened LedgerRuns
  import opened LedgerTheorems
  import opened LedgerIdempotence
  import opened LedgerFlags
  import opened LedgerOutcome
  import opened LedgerForgone
  import opened LedgerUser
  import opened LedgerConfirm
  import opened LedgerDecisions
  import opened LedgerHistory
  import opened LedgerAnswers

  // ── one step ────────────────────────────────────────────────────────

  /** The step answers the open item of an all-day event in the slot. */
  predicate LiftedBy(st: State, step: Step, slot: Slot) {
    && step.Resolve? && step.item in st.reviews && st.reviews[step.item].status == Open
    && st.reviews[step.item].event in st.events
    && var f := st.events[st.reviews[step.item].event].facts;
       SlotOf(f) == slot && Lifts(step.item.kind, f) && (step.action == Include || step.action == Exclude)
  }

  lemma SameExcluded(a: State, b: State, slot: Slot)
    requires SameAt(a.overlays, b.overlays, OverlayKey(slot, StatusKind))
    ensures Excluded(a, slot) <==> Excluded(b, slot)
  {
  }

  lemma OtherExcluded(a: State, b: State, slot: Slot, other: Slot)
    requires OverlaysElsewhere(a, b, slot) && other != slot
    ensures Excluded(a, other) <==> Excluded(b, other)
  {
    assert SameAt(a.overlays, b.overlays, OverlayKey(other, StatusKind));
  }

  lemma ResolveExclusion(env: Env, st: State, step: Step, slot: Slot)
    requires env.Valid() && WellFormed(st) && step.Resolve? && Excluded(st, slot)
    ensures Excluded(Next(env, st, step), slot) <==> !LiftedBy(st, step, slot)
  {
    hide WellFormed, ResolveReview, RowsAnswered;
    var (rk, action) := (step.item, step.action);
    ReviewAnswered(env, st, rk, action);
    if ResolveReview(env, st, rk, action).Done? {
      var st' := ResolveReview(env, st, rk, action).value;
      var f := st.events[st.reviews[rk].event].facts;
      if SlotOf(f) != slot { OtherExcluded(st, st', SlotOf(f), slot); }
    }
  }

  lemma ExcludeExclusion(env: Env, st: State, k: EventKey, slot: Slot)
    requires env.Valid() && WellFormed(st) && ExcludeEvent(env, st, k).Done? && Excluded(st, slot)
    ensures Excluded(ExcludeEvent(env, st, k).value, slot)
  {
    hide WellFormed, ExcludeEvent, Withdrawn, Excluded, HasLinked, OverlaysElsewhere;
    ExclusionAchieved(env, st, k);
    var own := SlotOf(st.events[k].facts);
    if own != slot { OtherExcluded(st, ExcludeEvent(env, st, k).value, own, slot); }
  }

  lemma RowsExclusion(env: Env, st: State, step: Step)
    requires env.Valid() && WellFormed(st) && !step.Pull? && !step.Resolve? && !step.ExcludeEv?
    ensures Next(env, st, step).overlays == st.overlays
  {
    hide WellFormed, SyncEvents, ResolveReview, ExcludeEvent, ConfirmEntry, SplitEntry, Clashes, Minutes, PieceOf;
    if step.Confirm? {
      ConfirmKeepsRest(env, st, step.id, step.policy, step.resolution);
    } else if step.Split? {
      SplitTables(env, st, step.id, step.cuts);
    }
  }

  lemma OnlyAnswersLift(st: State, step: Step, slot: Slot)
    ensures LiftedBy(st, step, slot) ==> step.Resolve?
  {
  }

  /** An excluded slot stays excluded through every step but the one that answers its all-day item. */
  lemma StepKeepsExclusion(env: Env, st: State, step: Step, slot: Slot)
    requires env.Valid() && WellFormed(st) && Excluded(st, slot)
    ensures Excluded(Next(env, st, step), slot) <==> !LiftedBy(st, step, slot)
  {
    hide WellFormed, SyncEvents, ResolveReview, ExcludeEvent, ConfirmEntry, SplitEntry, ConvertAllDay, SetCalendarActive, Excluded, LiftedBy;
    OnlyAnswersLift(st, step, slot);
    match step
    case Pull(pull) => if SyncEvents(env, st, pull).Done? { SyncKeepsOverlays(env, st, pull, slot); }
    case Resolve(_, _) => ResolveExclusion(env, st, step, slot);
    case ExcludeEv(k) => if ExcludeEvent(env, st, k).Done? { ExcludeExclusion(env, st, k, slot); }
    case _ =>
      RowsExclusion(env, st, step);
      SameExcluded(st, Next(env, st, step), slot);
  }

  // ── an excluded event that is pulled ────────────────────────────────

  lemma PreparedExcluded(env: Env, base: map<EventKey, Event>, inc: Incoming, s: Sync, st1: State, flagged: nat, material: bool)
    requires PullInv(base, s) && Prepared(base, inc, s, st1, flagged) && Timed(inc.facts) && Excluded(s.st, SlotOf(inc.facts))
    requires Materialize(env, st1, inc, s.rows, material).Done?
    ensures !HasLinked(Materialize(env, st1, inc, s.rows, material).value.0, IncIdentity(inc), Draft)
  {
    PreparedTracks(base, inc, s, st1, flagged);
    assert WellFormed(st1) && Excluded(st1, SlotOf(inc.facts));
    hide PullInv, Prepared, WellFormed, Tracks, DismissLinked, HasLinked, Excluded;
    DismissSettles(st1, s.rows, IncIdentity(inc));
  }

  lemma PulledExcluded(env: Env, base: map<EventKey, Event>, inc: Incoming, s: Sync)
    requires env.Valid() && PullInv(base, s) && Timed(inc.facts) && Excluded(s.st, SlotOf(inc.facts))
    requires PullOne(env, base, inc, s).Done?
    ensures !HasLinked(PullOne(env, base, inc, s).value.st, IncIdentity(inc), Draft)
  {
    hide PullInv, Prepared, Materialize, HandleNew, HandleChanged, UpsertEvent, HasLinked, Excluded;
    var k := IncKey(inc);
    if k !in base {
      PrepareNew(env, base, inc, s);
      var (st1, flagged) := HandleNew(env, UpsertEvent(s.st, inc), inc, s.rows).value;
      PreparedExcluded(env, base, inc, s, st1, flagged, false);
    } else if base[k].facts == inc.facts {
      PrepareSame(base, inc, s);
      PreparedExcluded(env, base, inc, s, s.st, 0, false);
    } else {
      PrepareChanged(env, base, inc, s);
      var (st1, flagged) := HandleChanged(env, UpsertEvent(s.st, inc), base[k], inc, s.rows).value;
      PreparedExcluded(env, base, inc, s, st1, flagged, TitleMaterial(env, base[k], inc) || IncludeDropped(base[k], inc));
    }
  }

  lemma {:induction false} PullsExcluded(env: Env, pull: seq<Incoming>, s: Sync, inc: Incoming)
    requires env.Valid() && PullInv(s.st.events, s) && DistinctKeys(pull) && PullAll(env, s.st.events, pull, s).Done?
    requires inc in pull && Timed(inc.facts) && Excluded(s.st, SlotOf(inc.facts))
    ensures !HasLinked(PullAll(env, s.st.events, pull, s).value.st, IncIdentity(inc), Draft)
  {
    hide PullInv, PullsEffect, PullEffect, Proposals, PullOne, HasLinked, Excluded, DistinctKeys, KeyFrame;
    var (init, last) := (pull[..|pull| - 1], pull[|pull| - 1]);
    PrefixKeys(init, last, pull);
    PullAllStep(env, s.st.events, init, s);
    var mid := PullAll(env, s.st.events, init, s).value;
    if last == inc {
      StillExcluded(init, s, mid, SlotOf(inc.facts));
      PulledExcluded(env, s.st.events, inc, mid);
    } else {
      PullsExcluded(env, init, s, inc);
      PullOneStep(env, s.st.events, last, mid);
      var s' := PullOne(env, s.st.events, last, mid).value;
      LastKey(init, last);
      OtherKey(env, s.st.events, last, mid, s', IncKey(inc));
      LinkedFrame(mid.st, s'.st, IncIdentity(inc));
    }
  }

  lemma StillExcluded(pull: seq<Incoming>, s: Sync, s': Sync, slot: Slot)
    requires PullsEffect(s.st.events, pull, s, s') && Excluded(s.st, slot)
    ensures Excluded(s'.st, slot)
  {
    hide Evolved, ReviewsKept, Framed, Fated, OpenItems;
  }

  lemma OtherKey(env: Env, base: map<EventKey, Event>, inc: Incoming, s: Sync, s': Sync, k: EventKey)
    requires PullEffect(env, base, inc, s, s') && k != IncKey(inc)
    ensures KeyFrame(s.st, s'.st, k)
  {
    LocalFrames(s.st, s'.st, IncKey(inc), SlotOf(inc.facts));
  }

  /** A sync leaves an excluded timed event that it pulls excluded and without a live draft. */
  lemma ExcludedStaysQuiet(env: Env, st: State, pull: seq<Incoming>, inc: Incoming)
    requires env.Valid() && WellFormed(st) && DistinctKeys(pull) && SyncEvents(env, st, pull).Done?
    requires inc in pull && Timed(inc.facts) && Excluded(st, SlotOf(inc.facts))
    ensures var st' := SyncEvents(env, st, pull).value.0;
            Excluded(st', SlotOf(inc.facts)) && !HasLinked(st', IncIdentity(inc), Draft)
  {
    hide PullInv, PullsEffect, Proposals, VanishRun, WellFormed, HasLinked, Excluded, DistinctKeys, KeyFrame, PullAll, SyncEvents;
    var s1, s2 := SyncRuns(env, st, pull);
    StartInv(env, st);
    PullsExcluded(env, pull, Start(env, st), inc);
    SeenFrame(Keys(pull), BaseEvents(env, st.events), s1, s2, IncKey(inc));
    LinkedFrame(s1.st, s2.st, IncIdentity(inc));
    SyncKeepsOverlays(env, st, pull, SlotOf(inc.facts));
  }

  lemma SeenFrame(seen: set<EventKey>, gone: seq<Event>, s1: Sync, s2: Sync, k: EventKey)
    requires VanishRun(seen, gone, s1, s2) && k in seen
    ensures KeyFrame(s1.st, s2.st, k)
  {
  }

  // ── every run ───────────────────────────────────────────────────────

  /** In every run from the empty ledger, a slot excluded at one point is excluded at every later point up to
      which no answer about an all-day event lifted it. */
  lemma {:induction false} RunKeepsExclusion(states: seq<State>, envs: seq<Env>, steps: seq<Step>, i: nat, j: nat, slot: Slot)
    requires Run(states, envs, steps) && states[0] == EMPTY && i <= j < |states| && Excluded(states[i], slot)
    requires forall n :: i <= n < j ==> !LiftedBy(states[n], steps[n], slot)
    ensures Excluded(states[j], slot)
  {
    hide WellFormed, Next, Excluded, LiftedBy;
    if i < j {
      RunKeepsExclusion(states, envs, steps, i, j - 1, slot);
      EmptyWellFormed();
      RunWellFormed(states, envs, steps, j - 1);
      assert states[j - 1 + 1] == Next(envs[j - 1], states[j - 1], steps[j - 1]);
      StepKeepsExclusion(envs[j - 1], states[j - 1], steps[j - 1], slot);
    }
  }

  /** Then any later sync that pulls an event of the slot leaves it without a live draft. */
  lemma ExcludedForGood(states: seq<State>, envs: seq<Env>, steps: seq<Step>, i: nat, j: nat, inc: Incoming)
    requires Run(states, envs, steps) && states[0] == EMPTY && i <= j < |steps| && Excluded(states[i], SlotOf(inc.facts))
    requires forall n :: i <= n < j ==> !LiftedBy(states[n], steps[n], SlotOf(inc.facts))
    requires steps[j].Pull? && DistinctKeys(steps[j].pull) && inc in steps[j].pull && Timed(inc.facts)
    ensures SyncEvents(envs[j], states[j], steps[j].pull).Done? ==> !HasLinked(states[j + 1], IncIdentity(inc), Draft)
  {
    hide WellFormed, SyncEvents, Excluded, LiftedBy, HasLinked, DistinctKeys, Next;
    RunKeepsExclusion(states, envs, steps, i, j, SlotOf(inc.facts));
    EmptyWellFormed();
    RunWellFormed(states, envs, steps, j);
    assert states[j + 1] == Next(envs[j], states[j], steps[j]);
    if SyncEvents(envs[j], states[j], steps[j].pull).Done? {
      ExcludedStaysQuiet(envs[j], states[j], steps[j].pull, inc);
      PullIsNext(envs[j], states[j], steps[j]);
    }
  }

  lemma PullIsNext(env: Env, st: State, step: Step)
    requires env.Valid() && step.Pull? && SyncEvents(env, st, step.pull).Done?
    ensures Next(env, st, step) == SyncEvents(env, st, step.pull).value.0
  {
    hide SyncEvents;
  }
}
