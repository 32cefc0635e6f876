/** What the stored event holds after a sync. The source hash leaves out the attendance status, so a status
    that changes alone is neither stored nor flagged. */
module LedgerStored {
  import opened Wrappers
  import opened LedgerTypes
  import opened LedgerSpec
  import opened LedgerSteps
  import opened LedgerDrafts
  import opened LedgerSync
  import opened LedgerRuns
  import opened LedgerTheorems
  import opened LedgerIdempotence
  import opened LedgerFlags
  import opened LedgerConflicts
  import opened LedgerForgone

  /** The event row that one pulled event leaves, given the row there was. */
  function RowAfter(was: Option<Event>, inc: Incoming): Event {
    if was.Some? && was.value.facts == inc.facts then was.value
    else Event(inc.calendar, inc.facts, inc.status, if was.Some? then was.value.active else true)
  }

  function EventAt(st: State, k: EventKey): Option<Event> {
    if k in st.events then Some(st.events[k]) else None
  }

  lemma StoredOnce(env: Env, base: map<EventKey, Event>, inc: Incoming, s: Sync)
    requires env.Valid() && PullInv(base, s) && SameAt(base, s.st.events, IncKey(inc)) && PullOne(env, base, inc, s).Done?
    ensures EventAt(PullOne(env, base, inc, s).value.st, IncKey(inc)) == Some(RowAfter(EventAt(s.st, IncKey(inc)), inc))
  {
    hide PullInv, Prepared, HandleNew, HandleChanged, AllOpenAt, WellFormed, Materialize, ChangedEffect;
    var k := IncKey(inc);
    var st0 := UpsertEvent(s.st, inc);
    if k in base && base[k].facts == inc.facts {
      PrepareSame(base, inc, s);
      MaterializedTables(env, base, inc, s, s.st, 0, false);
    } else {
      StoredFirst(base, inc, s);
      if k !in base {
        PrepareNew(env, base, inc, s);
        HandleNewStep(env, st0, inc, s.rows);
        var (st1, flagged) := HandleNew(env, st0, inc, s.rows).value;
        MaterializedTables(env, base, inc, s, st1, flagged, false);
      } else {
        PrepareChanged(env, base, inc, s);
        BornChangedEvent(env, st0, base[k], inc, s.rows);
        var (st1, flagged) := HandleChanged(env, st0, base[k], inc, s.rows).value;
        MaterializedTables(env, base, inc, s, st1, flagged, TitleMaterial(env, base[k], inc) || IncludeDropped(base[k], inc));
      }
    }
  }

  lemma ItemsOfSame(env: Env, base: map<EventKey, Event>, inc: Incoming, s: Sync)
    requires env.Valid() && PullInv(base, s) && PullOne(env, base, inc, s).Done?
    requires IncKey(inc) in base && base[IncKey(inc)].facts == inc.facts
    ensures PullOne(env, base, inc, s).value.st.reviews == s.st.reviews
  {
    hide PullInv, Prepared, Materialize;
    PrepareSame(base, inc, s);
    MaterializedTables(env, base, inc, s, s.st, 0, false);
  }

  lemma PulledFrames(env: Env, st: State, pull: seq<Incoming>, inc: Incoming) returns (mid: Sync, next: Sync)
    requires env.Valid() && WellFormed(st) && DistinctPull(pull) && SyncEvents(env, st, pull).Done? && inc in pull
    ensures PullInv(st.events, mid) && PullOne(env, st.events, inc, mid) == Done(next)
    ensures KeyFrame(st, mid.st, IncKey(inc)) && KeyFrame(next.st, SyncEvents(env, st, pull).value.0, IncKey(inc))
  {
    hide PullInv, PullsEffect, Proposals, VanishRun, SyncEvents, PullAll, WellFormed, RowsGrown, DistinctPull, KeyFrame, SlotFrame, PullOne;
    var s1, s2 := SyncRuns(env, st, pull);
    StartInv(env, st);
    var i :| 0 <= i < |pull| && pull[i] == inc;
    mid, next := PulledAt(env, pull, Start(env, st), i);
    UntilTheEnd(env, st, pull, next.st, s1, s2, inc);
  }

  /** After a sync a pulled event is stored with the pulled facts. Its status is the pulled one if the event
      was new or its facts changed; otherwise the row is as it was, whatever the pulled status. */
  lemma PulledIsStored(env: Env, st: State, pull: seq<Incoming>, inc: Incoming)
    requires env.Valid() && WellFormed(st) && DistinctPull(pull) && SyncEvents(env, st, pull).Done? && inc in pull
    ensures var (st', k) := (SyncEvents(env, st, pull).value.0, IncKey(inc));
            && k in st'.events && st'.events[k] == RowAfter(EventAt(st, k), inc) && st'.events[k].facts == inc.facts
            && (st'.events[k].status == inc.status <==>
                  k !in st.events || st.events[k].facts != inc.facts || st.events[k].status == inc.status)
  {
    hide WellFormed, DistinctPull, SyncEvents, PullInv, PullOne;
    var mid, next := PulledFrames(env, st, pull, inc);
    assert SameAt(st.events, mid.st.events, IncKey(inc)) && SameAt(next.st.events, SyncEvents(env, st, pull).value.0.events, IncKey(inc));
    hide KeyFrame;
    StoredOnce(env, st.events, inc, mid);
  }

  /** A status that changes alone, such as a decline without any other change, leaves the stored row and
      every review item of the event as they were. */
  lemma StatusAloneIsUnseen(env: Env, st: State, pull: seq<Incoming>, inc: Incoming)
    requires env.Valid() && WellFormed(st) && DistinctPull(pull) && SyncEvents(env, st, pull).Done?
    requires inc in pull && IncKey(inc) in st.events && st.events[IncKey(inc)].facts == inc.facts
    ensures var (st', k) := (SyncEvents(env, st, pull).value.0, IncKey(inc));
            && k in st'.events && st'.events[k] == st.events[k]
            && (forall rk: ReviewKey :: IdentityKey(rk.identity) == k ==> SameAt(st.reviews, st'.reviews, rk))
  {
    hide WellFormed, DistinctPull, SyncEvents, PullInv, PullOne;
    PulledIsStored(env, st, pull, inc);
    var mid, next := PulledFrames(env, st, pull, inc);
    ItemsOfSame(env, st.events, inc, mid);
    var st' := SyncEvents(env, st, pull).value.0;
    forall rk: ReviewKey | IdentityKey(rk.identity) == IncKey(inc) ensures SameAt(st.reviews, st'.reviews, rk) {
      assert SameAt(st.reviews, mid.st.reviews, rk) && SameAt(next.st.reviews, st'.reviews, rk);
    }
  }
}
