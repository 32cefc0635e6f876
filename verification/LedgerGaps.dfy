/** What the user's decisions do to the gaps of a schedule: which instants stay occupied. */
module LedgerGaps {
  import opened Wrappers
  import opened Intervals
  import opened Cutting
  import opened LedgerTypes
  import opened LedgerSpec
  import opened LedgerSteps
  import opened LedgerUser
  import opened LedgerConfirm
  import opened LedgerDecisions
  import opened LedgerShrink
  import opened Gaps

  /** Not a gap, wherever working time falls. */
  ghost predicate Occupied(st: State, t: int) {
    EventAt(st, t) || FillAt(st, t)
  }

  lemma SameEventsAt(st: State, st': State, t: int)
    requires st'.events == st.events && st'.overlays == st.overlays
    ensures EventAt(st', t) <==> EventAt(st, t)
  {
    if EventAt(st, t) {
      var k :| k in st.events && OccupiesAs(st, st.events[k]) && Covers(EventSpan(st.events[k]), t);
      assert OccupiesAs(st', st'.events[k]);
    }
    if EventAt(st', t) {
      var k :| k in st'.events && OccupiesAs(st', st'.events[k]) && Covers(EventSpan(st'.events[k]), t);
      assert OccupiesAs(st, st.events[k]);
    }
  }

  /** After `use_event` the entries cover exactly what they covered outside the event. */
  lemma UseEventFills(env: Env, st: State, event: Interval, t: int)
    requires env.Valid() && WellFormed(st) && event.start <= event.end
    ensures ShrinkAll(st, env.listRows(st.entries), event).Done?
    ensures FillAt(ShrinkAll(st, env.listRows(st.entries), event).value, t) <==> FillAt(st, t) && !Covers(event, t)
  {
    hide WellFormed, ShrinkAll;
    var origin := UseEventTrims(env, st, event);
    var st' := ShrinkAll(st, env.listRows(st.entries), event).value;
    if FillAt(st, t) && !Covers(event, t) {
      var x :| x in st.entries && Covers(st.entries[x].span, t);
      assert Trimmed(st, st', origin, event, x);
      var y :| Owns(st', origin, x, y, t);
    }
    if FillAt(st', t) {
      var y :| y in st'.entries && Covers(st'.entries[y].span, t);
      assert Trimmed(st, st', origin, event, origin[y]);
      assert Owns(st', origin, origin[y], y, t) && Left(st', origin, origin[y], t);
    }
  }

  /** Using a visible event in place of the entries it meets neither opens nor closes a gap. */
  lemma UseEventKeepsOccupied(env: Env, st: State, k: EventKey, t: int)
    requires env.Valid() && WellFormed(st) && k in st.events && OccupiesAs(st, st.events[k])
    requires EventSpan(st.events[k]).start <= EventSpan(st.events[k]).end
    ensures ApplyNewInGap(env, st, k, UseEvent).Done?
    ensures Occupied(ApplyNewInGap(env, st, k, UseEvent).value, t) <==> Occupied(st, t)
  {
    hide WellFormed, ShrinkAll, FillAt;
    var event := EventSpan(st.events[k]);
    UseEventFills(env, st, event, t);
    var origin := UseEventTrims(env, st, event);
    var st' := ShrinkAll(st, env.listRows(st.entries), event).value;
    assert ApplyNewInGap(env, st, k, UseEvent) == Done(st');
    DescendsTables(st, st', origin);
    SameEventsAt(st, st', t);
    if Covers(event, t) { assert EventAt(st, t); }
  }

  lemma DescendsTables(st: State, st': State, origin: Origin)
    requires Descends(st, st', origin)
    ensures st'.events == st.events && st'.overlays == st.overlays
  {
  }

  /** Keeping the entry of a deleted event leaves its whole time occupied, by a manual copy; only other
      events on its overlay slot can be uncovered by the exclusion. */
  lemma KeepEntryKeepsTime(env: Env, st: State, k: EventKey, t: int)
    requires env.Valid() && WellFormed(st) && k in st.events && ApplyDeleted(env, st, k, KeepEntry).Done?
    requires forall j :: j in st.events && j != k ==> SlotOf(st.events[j].facts) != SlotOf(st.events[k].facts)
    ensures Covers(EventSpan(st.events[k]), t) ==> FillAt(ApplyDeleted(env, st, k, KeepEntry).value, t)
    ensures Occupied(st, t) ==> Occupied(ApplyDeleted(env, st, k, KeepEntry).value, t)
  {
    hide WellFormed, Local, DismissDraftsOf;
    var ev := st.events[k];
    var st1 := DismissDraftsStep(env, st, k);
    var st' := ApplyDeleted(env, st, k, KeepEntry).value;
    var n := st1.nextEntry;
    assert n in st'.entries && st'.entries[n].span == EventSpan(ev);
    DismissedFills(env, st, IdentityOf(ev.calendar, ev.facts), st1, t);
    if FillAt(st1, t) {
      var x :| x in st1.entries && Covers(st1.entries[x].span, t);
      FreshId(st1, x);
      assert x in st'.entries && st'.entries[x] == st1.entries[x];
    }
    if EventAt(st, t) {
      var j :| j in st.events && OccupiesAs(st, st.events[j]) && Covers(EventSpan(st.events[j]), t);
      if j != k {
        assert !Excluded(st', SlotOf(st.events[j].facts));
        assert OccupiesAs(st', st'.events[j]);
      }
    }
  }

  lemma FreshId(st: State, x: nat)
    requires WellFormed(st) && x in st.entries
    ensures x != st.nextEntry
  {
  }

  /** Soft-rejected drafts still count as fills. */
  lemma DismissedFills(env: Env, st: State, id: Identity, st': State, t: int)
    requires DismissDraftsOf(env, st, id) == Done(st')
    ensures FillAt(st, t) ==> FillAt(st', t)
  {
    if FillAt(st, t) {
      var x :| x in st.entries && Covers(st.entries[x].span, t);
      assert x in st'.entries && st'.entries[x].span == st.entries[x].span;
    }
  }

  /** Confirming moves no time unless it deletes overlapped rows: every instant that was filled stays
      filled and no other is, because the dismissed original still counts. */
  lemma ConfirmKeepsFills(env: Env, st: State, id: nat, policy: Overnight, resolution: Resolution, t: int)
    requires env.Valid() && WellFormed(st) && Proper(st) && resolution != KeepMine
    ensures FillAt(ConfirmEntry(env, st, id, policy, resolution).st, t) <==> FillAt(st, t)
  {
    hide ConfirmEntry, WellFormed, PieceOf, Taken;
    ConfirmKeepsRest(env, st, id, policy, resolution);
    var r := ConfirmEntry(env, st, id, policy, resolution);
    if FillAt(st, t) {
      var x :| x in st.entries && Covers(st.entries[x].span, t);
      assert x in r.st.entries && r.st.entries[x].span == st.entries[x].span;
    }
    if FillAt(r.st, t) {
      var x :| x in r.st.entries && Covers(r.st.entries[x].span, t);
      if x in st.entries {
        assert st.entries[x].span == r.st.entries[x].span;
      } else {
        PieceConfirmed(st.entries[id], env.zoneOf(st.entries[id].day), r.st.entries[x].span);
        ConfirmCovers(env, st, id, policy, resolution, t);
        assert ConfirmedAt(st, r.st, id, t);
        assert Covers(st.entries[id].span, t);
      }
    }
  }

  lemma PieceConfirmed(te: TimeEntry, zone: Zone, span: Interval)
    ensures PieceOf(te, zone, span, Confirmed).attestation == Confirmed
  {
  }
}
