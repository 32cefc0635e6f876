/** internal/service/review_policy.go as methods over the tables, each proved to compute its
    specification. A method whose `ok` is false has failed inside a transaction its caller rolls back. */
module ReviewPolicy {
  import opened Wrappers
  import opened Intervals
  import opened Cutting
  import opened LedgerTypes
  import opened LedgerSpec
  import opened Store

  // ── linked entries ──────────────────────────────────────────────────

  function LinkedRows(rows: seq<Row>, id: Identity): seq<Row> {
    if |rows| == 0 then []
    else LinkedRows(rows[..|rows| - 1], id) + (if Linked(rows[|rows| - 1].te, id) then [rows[|rows| - 1]] else [])
  }

  lemma {:induction false} LinkedRowsExact(rows: seq<Row>, id: Identity)
    ensures forall r :: r in LinkedRows(rows, id) <==> r in rows && Linked(r.te, id)
  {
    if |rows| > 0 {
      LinkedRowsExact(rows[..|rows| - 1], id);
      assert rows == rows[..|rows| - 1] + [rows[|rows| - 1]];
    }
  }

  method LinkedCalendarEntries(rows: seq<Row>, id: Identity) returns (out: seq<Row>)
    ensures out == LinkedRows(rows, id)
  {
    out := [];
    for n := 0 to |rows|
      invariant out == LinkedRows(rows[..n], id)
    {
      assert rows[..n + 1][..n] == rows[..n];
      if rows[n].te.source != Calendar(id) {
        continue;
      }
      out := out + [rows[n]];
    }
    assert rows[..|rows|] == rows;
  }

  /** Soft-rejects the drafts among linked entries. */
  method DismissLinkedDrafts(q: Queries, linked: seq<Row>, id: Identity) returns (ok: bool)
    requires forall r :: r in linked ==> Linked(r.te, id)
    modifies q
    ensures ok <==> DismissLinked(old(q.Tables()), linked, id).Done?
    ensures ok ==> q.Tables() == DismissLinked(old(q.Tables()), linked, id).value
  {
    ghost var st0 := q.Tables();
    for n := 0 to |linked|
      invariant StaleDrafts(linked[..n], id) <= st0.entries.Keys
      invariant q.Tables() == st0.(entries := Attest(st0.entries, StaleDrafts(linked[..n], id), Dismissed))
    {
      StalePush(linked, n, id);
      assert linked[n] in linked;
      if linked[n].te.attestation != Draft {
        continue;
      }
      var found := q.UpdateAttestation(linked[n].id, Dismissed);
      if !found {
        assert linked[n].id in StaleDrafts(linked, id);
        return false;
      }
    }
    assert linked[..|linked|] == linked;
    return true;
  }

  lemma StalePush(rows: seq<Row>, n: nat, id: Identity)
    requires n < |rows|
    ensures StaleDrafts(rows[..n + 1], id)
            == StaleDrafts(rows[..n], id)
               + (if Linked(rows[n].te, id) && rows[n].te.attestation == Draft then {rows[n].id} else {})
  {
    assert rows[..n + 1] == rows[..n] + [rows[n]];
  }

  lemma StaleOfLinked(rows: seq<Row>, id: Identity)
    ensures StaleDrafts(LinkedRows(rows, id), id) == StaleDrafts(rows, id)
  {
    LinkedRowsExact(rows, id);
  }

  method DismissCalendarDraftsForEvent(q: Queries, env: Env, ev: Event) returns (ok: bool)
    modifies q
    ensures var spec := DismissDraftsOf(env, old(q.Tables()), IdentityOf(ev.calendar, ev.facts));
            (ok <==> spec.Done?) && (ok ==> q.Tables() == spec.value)
  {
    var id := IdentityOf(ev.calendar, ev.facts);
    var entries := env.listRows(q.entries);
    var linked := LinkedCalendarEntries(entries, id);
    LinkedRowsExact(entries, id);
    StaleOfLinked(entries, id);
    ok := DismissLinkedDrafts(q, linked, id);
  }

  // ── enqueue and replay ──────────────────────────────────────────────

  method Enqueue(q: Queries, rk: ReviewKey, k: EventKey, payload: Payload) returns (action: Action, created: bool)
    modifies q
    ensures EnqueueOrReplay(old(q.Tables()), rk, k, payload) == (q.Tables(), action, if created then 1 else 0)
  {
    if rk in q.reviews {
      if q.reviews[rk].status == Open {
        return NoAction, false;
      }
      return q.reviews[rk].action, false;
    }
    q.PutReview(rk, Review(k, payload, Open, NoAction));
    return NoAction, true;
  }

  method EnqueueSourceDrift(q: Queries, k: EventKey, id: Identity, payload: Payload) returns (created: bool)
    modifies q
    ensures EnqueueDrift(old(q.Tables()), k, id, payload) == (q.Tables(), if created then 1 else 0)
  {
    var rk := ReviewKey(SourceDrift, id, Drifted);
    if rk in q.reviews && q.reviews[rk].status == Open {
      q.PutReview(rk, q.reviews[rk].(payload := payload));
      return false;
    }
    q.PutReview(rk, Review(k, payload, Open, NoAction));
    return true;
  }

  // ── applying decisions ──────────────────────────────────────────────

  method MarkEventExcluded(q: Queries, ev: Event)
    modifies q
    ensures q.Tables() == MarkExcluded(old(q.Tables()), SlotOf(ev.facts))
  {
    q.UpsertOverlay(SlotOf(ev.facts), StatusKind, Overlay(None, ExcludedNote));
  }

  method DeleteCategoryOverlay(q: Queries, ev: Event)
    modifies q
    ensures q.Tables() == DropOverlay(old(q.Tables()), SlotOf(ev.facts), CategoryKind)
  {
    if OverlayKey(SlotOf(ev.facts), CategoryKind) in q.overlays {
      q.DeleteOverlay(SlotOf(ev.facts), CategoryKind);
    } else {
      assert q.overlays - {OverlayKey(SlotOf(ev.facts), CategoryKind)} == q.overlays;
    }
  }

  method ConvertEventToManualFill(q: Queries, env: Env, ev: Event) returns (ok: bool)
    modifies q
    ensures var spec := ConvertToManual(env, old(q.Tables()), ev);
            (ok <==> spec.Done?) && (ok ==> q.Tables() == spec.value)
  {
    if !Timed(ev.facts) {
      return false;
    }
    var category: Option<int> := None;
    if OverlayKey(SlotOf(ev.facts), CategoryKind) in q.overlays {
      category := q.overlays[OverlayKey(SlotOf(ev.facts), CategoryKind)].category;
    }
    if !env.hasTz {
      return false;
    }
    var span := Interval(ev.facts.start.value, ev.facts.end.value);
    var _ := q.CreateTimeEntry(TimeEntry(span, Minutes(span), env.localDay(span.start), category, ev.facts.title,
                                         Confirmed, NoSource, NoRevision, NoMethod, DEFAULT_ALLOCATION));
    DeleteCategoryOverlay(q, ev);
    return true;
  }

  method ApplyDeletedCategorized(q: Queries, env: Env, k: EventKey, action: Action) returns (ok: bool)
    modifies q
    ensures var spec := ApplyDeleted(env, old(q.Tables()), k, action);
            (ok <==> spec.Done?) && (ok ==> q.Tables() == spec.value)
  {
    if k !in q.events {
      return false;
    }
    var ev := q.events[k];
    match action {
      case KeepEntry =>
        ok := DismissCalendarDraftsForEvent(q, env, ev);
        if !ok { return false; }
        ok := ConvertEventToManualFill(q, env, ev);
        if !ok { return false; }
        MarkEventExcluded(q, ev);
      case DropEntry =>
        ok := DismissCalendarDraftsForEvent(q, env, ev);
        if !ok { return false; }
        DeleteCategoryOverlay(q, ev);
        MarkEventExcluded(q, ev);
      case _ =>
        return false;
    }
  }

  lemma {:induction false} ShrinkStuck(st: State, rows: seq<Row>, event: Interval, n: nat)
    requires n <= |rows| && ShrinkAll(st, rows[..n], event).Failed?
    ensures ShrinkAll(st, rows, event).Failed?
  {
    if n < |rows| {
      assert rows[..|rows| - 1][..n] == rows[..n];
      ShrinkStuck(st, rows[..|rows| - 1], event, n);
    } else {
      assert rows[..n] == rows;
    }
  }

  /** Trims or removes every listed entry that meets a timed event. */
  method ShrinkGapFillsForEvent(q: Queries, event: Interval, fills: seq<Row>) returns (ok: bool)
    modifies q
    ensures var spec := ShrinkAll(old(q.Tables()), fills, event);
            (ok <==> spec.Done?) && (ok ==> q.Tables() == spec.value)
  {
    ghost var st0 := q.Tables();
    for n := 0 to |fills|
      invariant ShrinkAll(st0, fills[..n], event) == Done(q.Tables())
    {
      assert fills[..n + 1][..n] == fills[..n];
      var fill := fills[n];
      ghost var was := q.Tables();
      var a := Cutting.SplitAround(fill.te.span, event);
      if a.overlap.None? {
        continue;
      }
      var found := true;
      if a.before.None? && a.after.None? {
        var _ := q.DeleteTimeEntry(fill.id);
      } else if a.before.None? {
        if fill.id in q.entries {
          found := q.UpdateTimeEntry(fill.id, WithSpan(q.entries[fill.id], a.after.value));
        } else {
          found := false;
        }
      } else {
        if fill.id in q.entries {
          found := q.UpdateTimeEntry(fill.id, WithSpan(q.entries[fill.id], a.before.value));
        } else {
          found := false;
        }
        if found && a.after.Some? {
          var _ := q.CreateTimeEntry(WithSpan(fill.te, a.after.value));
        }
      }
      if !found {
        assert ShrinkOne(was, fill, event).Failed?;
        ShrinkStuck(st0, fills, event, n + 1);
        return false;
      }
      assert ShrinkOne(was, fill, event) == Done(q.Tables());
    }
    assert fills[..|fills|] == fills;
    return true;
  }

  method ApplyNewInGapAction(q: Queries, env: Env, k: EventKey, action: Action) returns (ok: bool)
    modifies q
    ensures var spec := ApplyNewInGap(env, old(q.Tables()), k, action);
            (ok <==> spec.Done?) && (ok ==> q.Tables() == spec.value)
  {
    if k !in q.events {
      return false;
    }
    var ev := q.events[k];
    match action {
      case KeepGap =>
        MarkEventExcluded(q, ev);
        return true;
      case UseEvent =>
        if !Timed(ev.facts) {
          return false;
        }
        var fills := env.listRows(q.entries);
        ok := ShrinkGapFillsForEvent(q, Interval(ev.facts.start.value, ev.facts.end.value), fills);
      case _ =>
        return false;
    }
  }

  method ClearAllDayReviewExclusion(q: Queries, k: EventKey) returns (ok: bool)
    modifies q
    ensures var spec := ClearAllDayExclusion(old(q.Tables()), k);
            (ok <==> spec.Done?) && (ok ==> q.Tables() == spec.value)
  {
    if k !in q.events {
      return false;
    }
    var ev := q.events[k];
    if !ev.facts.allDay {
      return true;
    }
    var ok' := OverlayKey(SlotOf(ev.facts), StatusKind);
    if ok' !in q.overlays || q.overlays[ok'].note != ExcludedNote {
      return true;
    }
    q.DeleteOverlay(SlotOf(ev.facts), StatusKind);
    return true;
  }

  method ApplyIncludeExcludeAction(q: Queries, kind: ReviewKind, k: EventKey, action: Action) returns (ok: bool)
    modifies q
    ensures var spec := ApplyIncludeExclude(old(q.Tables()), kind, k, action);
            (ok <==> spec.Done?) && (ok ==> q.Tables() == spec.value)
  {
    match action {
      case Include =>
        if kind == AllDayEvent {
          ok := ClearAllDayReviewExclusion(q, k);
        } else {
          return true;
        }
      case Exclude =>
        if k !in q.events {
          return false;
        }
        var ev := q.events[k];
        DeleteCategoryOverlay(q, ev);
        if kind == AllDayEvent {
          ok := ClearAllDayReviewExclusion(q, k);
        } else {
          MarkEventExcluded(q, ev);
          return true;
        }
      case _ =>
        return false;
    }
  }

  method SpawnSourceDriftDraft(q: Queries, env: Env, k: EventKey, payload: Payload, replace: bool) returns (ok: bool)
    modifies q
    ensures var spec := SpawnDriftDraft(env, old(q.Tables()), k, payload, replace);
            (ok <==> spec.Done?) && (ok ==> q.Tables() == spec.value)
  {
    if k !in q.events || !Timed(q.events[k].facts) {
      return false;
    }
    var ev := q.events[k];
    var ids, id, rev := [], IdentityOf(ev.calendar, ev.facts), Hash(ev.facts);
    match payload {
      case DriftOf(pids, pid, prev, _) => ids, id, rev := pids, pid, prev;
      case _ =>
    }
    var category: Option<int> := None;
    var text := ev.facts.title;
    var allocation := DEFAULT_ALLOCATION;
    var n := 0;
    while n < |ids|
      invariant n <= |ids|
      invariant FirstConfirmed(q.entries, ids) == FirstConfirmed(q.entries, ids[n..])
      invariant category == None && text == ev.facts.title && allocation == DEFAULT_ALLOCATION
    {
      if ids[n] in q.entries && q.entries[ids[n]].attestation == Confirmed {
        var row := q.entries[ids[n]];
        category := row.category;
        if !replace && row.description != "" {
          text := row.description;
        }
        allocation := row.allocation;
        break;
      }
      assert ids[n..][1..] == ids[n + 1..];
      n := n + 1;
    }
    if !env.hasTz {
      return false;
    }
    var span := Interval(ev.facts.start.value, ev.facts.end.value);
    var _ := q.CreateTimeEntry(TimeEntry(span, Minutes(span), env.localDay(span.start), category, text, Draft,
                                         Calendar(id), rev, CalendarImport, allocation));
    return true;
  }

  /** Validates the action for the kind and runs its side effects. */
  method ApplyDecision(q: Queries, env: Env, kind: ReviewKind, k: EventKey, payload: Payload, action: Action)
    returns (ok: bool, status: ReviewStatus)
    modifies q
    ensures var spec := Apply(env, old(q.Tables()), kind, k, payload, action);
            (ok <==> spec.Done?) && (ok ==> (q.Tables(), status) == spec.value)
  {
    status := Resolved;
    match kind {
      case DeletedCategorized =>
        ok := ApplyDeletedCategorized(q, env, k, action);
      case TitleChanged =>
        ok := action == Accept || action == Dismiss;
        if action == Dismiss { status := Closed; }
      case NewInGap =>
        ok := ApplyNewInGapAction(q, env, k, action);
      case TentativeEvent =>
        ok := ApplyIncludeExcludeAction(q, kind, k, action);
      case AllDayEvent =>
        ok := ApplyIncludeExcludeAction(q, kind, k, action);
      case SourceDrift =>
        if action == Dismiss {
          ok, status := true, Closed;
        } else if action == SpawnDraft || action == Replace {
          ok := SpawnSourceDriftDraft(q, env, k, payload, action == Replace);
        } else {
          ok := false;
        }
      case Unsupported =>
        ok := false;
    }
  }
}
