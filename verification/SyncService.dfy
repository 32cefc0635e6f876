/** internal/service/sync.go and internal/service/sync_materialize.go, with the `On*` handlers of
    internal/service/review_policy.go, as methods over the tables. */
module SyncService {
  import opened Wrappers
  import opened Intervals
  import opened LedgerTypes
  import opened LedgerSpec
  import opened Store
  import opened ReviewPolicy

  // ── review handlers ─────────────────────────────────────────────────

  method OverlappingGapFingerprint(inc: Incoming, gaps: seq<Row>) returns (parts: seq<GapPart>)
    ensures parts == Fingerprint(inc.facts, gaps)
  {
    parts := [];
    if inc.facts.start.None? || inc.facts.end.None? {
      return;
    }
    var span := Interval(inc.facts.start.value, inc.facts.end.value);
    for n := 0 to |gaps|
      invariant parts == GapParts(span, gaps[..n])
    {
      assert gaps[..n + 1][..n] == gaps[..n];
      var g := gaps[n];
      if span.start < g.te.span.end && g.te.span.start < span.end {
        parts := parts + [GapPart(g.te.span, g.te.category, g.te.how)];
      }
    }
    assert gaps[..|gaps|] == gaps;
  }

  method FlagNewEvent(q: Queries, env: Env, inc: Incoming, gaps: seq<Row>) returns (ok: bool, flagged: nat, skipAuto: bool)
    modifies q
    ensures var spec := OnNewEvent(env, old(q.Tables()), inc, gaps);
            (ok <==> spec.Done?) && (ok ==> (q.Tables(), flagged, skipAuto) == spec.value)
  {
    var k, id := IncKey(inc), IncIdentity(inc);
    ok, flagged, skipAuto := true, 0, false;
    var parts := OverlappingGapFingerprint(inc, gaps);
    var action, created := NoAction, false;
    if parts != [] {
      action, created := Enqueue(q, ReviewKey(NewInGap, id, GapPrint(parts)), k, Titled(inc.facts.title));
      if created { flagged := 1; }
      if action == KeepGap || action == UseEvent {
        var done, _ := ApplyDecision(q, env, NewInGap, k, NoPayload, action);
        if !done { return false, flagged, false; }
        skipAuto := action == KeepGap;
      }
    } else if inc.facts.allDay {
      action, created := Enqueue(q, ReviewKey(AllDayEvent, id, Dates(inc.facts.startDate, inc.facts.endDate)), k, Titled(inc.facts.title));
      if created { flagged := 1; }
    } else if NeedsAnswer(inc.status) {
      action, created := Enqueue(q, ReviewKey(TentativeEvent, id, StatusIs(inc.status)), k, Titled(inc.facts.title));
      if created { flagged := 1; }
      if action == Exclude {
        var done, _ := ApplyDecision(q, env, TentativeEvent, k, NoPayload, action);
        if !done { return false, flagged, false; }
        skipAuto := true;
      }
    }
  }

  method FlagChangedCategorized(q: Queries, env: Env, ex: Event, inc: Incoming) returns (ok: bool, flagged: nat)
    modifies q
    ensures var spec := OnChangedCategorized(env, old(q.Tables()), ex, inc);
            (ok <==> spec.Done?) && (ok ==> (q.Tables(), flagged) == spec.value)
  {
    var id := IncIdentity(inc);
    ok, flagged := true, 0;
    if env.normalize(ex.facts.title) != env.normalize(inc.facts.title) {
      var _, created := Enqueue(q, ReviewKey(TitleChanged, id, Titles(env.normalize(ex.facts.title), env.normalize(inc.facts.title))),
                                IncKey(inc), Renamed(ex.facts.title, inc.facts.title));
      if created { flagged := flagged + 1; }
    }
    if inc.status == Declined {
      var action, created := Enqueue(q, ReviewKey(DeletedCategorized, id, WasDeclined), IncKey(inc), Titled(inc.facts.title));
      if created { flagged := flagged + 1; }
      if action == DropEntry {
        var done, _ := ApplyDecision(q, env, DeletedCategorized, IncKey(inc), NoPayload, action);
        ok := done;
      }
    }
  }

  method FlagConfirmedSourceDrift(q: Queries, inc: Incoming, entries: seq<Row>) returns (flagged: nat)
    modifies q
    ensures OnConfirmedSourceDrift(old(q.Tables()), inc, entries) == (q.Tables(), flagged)
  {
    var id := IncIdentity(inc);
    var drifted: seq<nat> := [];
    for n := 0 to |entries|
      invariant drifted == DriftedIds(entries[..n], id, Hash(inc.facts))
    {
      assert entries[..n + 1][..n] == entries[..n];
      var te := entries[n].te;
      if te.attestation != Confirmed {
        continue;
      }
      if te.source != Calendar(id) {
        continue;
      }
      if te.revision == Hash(inc.facts) {
        continue;
      }
      drifted := drifted + [entries[n].id];
    }
    assert entries[..|entries|] == entries;
    if drifted == [] {
      return 0;
    }
    var created := EnqueueSourceDrift(q, IncKey(inc), id, DriftOf(drifted, id, Hash(inc.facts), inc.facts.title));
    return if created then 1 else 0;
  }

  method FlagVanishedConfirmedSource(q: Queries, ev: Event, entries: seq<Row>) returns (flagged: nat, kept: bool)
    modifies q
    ensures kept <==> ConfirmedIds(entries, IdentityOf(ev.calendar, ev.facts)) != []
    ensures if kept then EnqueueDrift(old(q.Tables()), KeyOf(ev.calendar, ev.facts), IdentityOf(ev.calendar, ev.facts),
                                      DeletedPayload(entries, ev)) == (q.Tables(), flagged)
            else flagged == 0 && q.Tables() == old(q.Tables())
  {
    var id := IdentityOf(ev.calendar, ev.facts);
    var drifted: seq<nat> := [];
    for n := 0 to |entries|
      invariant drifted == ConfirmedIds(entries[..n], id)
    {
      assert entries[..n + 1][..n] == entries[..n];
      if entries[n].te.attestation != Confirmed {
        continue;
      }
      if entries[n].te.source != Calendar(id) {
        continue;
      }
      drifted := drifted + [entries[n].id];
    }
    assert entries[..|entries|] == entries;
    if drifted == [] {
      return 0, false;
    }
    var created := EnqueueSourceDrift(q, KeyOf(ev.calendar, ev.facts), id, DriftOf(drifted, id, DeletedRevision, ev.facts.title));
    return if created then 1 else 0, true;
  }

  method FlagVanishedCategorized(q: Queries, env: Env, ev: Event) returns (ok: bool, flagged: bool, removed: bool)
    modifies q
    ensures var spec := OnVanishedCategorized(env, old(q.Tables()), ev);
            && (ok <==> spec.Done?)
            && (ok ==> (q.Tables(), if flagged then 1 else 0, if removed then 1 else 0) == spec.value)
  {
    var k, id := KeyOf(ev.calendar, ev.facts), IdentityOf(ev.calendar, ev.facts);
    ok, removed := true, false;
    var action;
    action, flagged := Enqueue(q, ReviewKey(DeletedCategorized, id, WasDeleted), k, Titled(ev.facts.title));
    if action == DropEntry || action == KeepEntry {
      var done, _ := ApplyDecision(q, env, DeletedCategorized, k, NoPayload, action);
      ok := done;
      removed := action == DropEntry;
    }
  }

  // ── automatic categories ────────────────────────────────────────────

  method HasCategory(q: Queries, slot: Slot) returns (has: bool)
    ensures has == Categorized(q.Tables(), slot)
  {
    if OverlayKey(slot, CategoryKind) !in q.overlays {
      return false;
    }
    return q.overlays[OverlayKey(slot, CategoryKind)].category.Some?;
  }

  method ApplyRememberedCategory(q: Queries, env: Env, inc: Incoming)
    modifies q
    ensures q.Tables() == ApplyMemory(env, old(q.Tables()), inc)
  {
    var mk := MatchKeyOf(env, inc.facts);
    if mk !in env.memory {
      return;
    }
    q.UpsertOverlay(SlotOf(inc.facts), CategoryKind, CategoryOverlay(env.memory[mk]));
  }

  method ApplyDefaultCategory(q: Queries, env: Env, inc: Incoming)
    modifies q
    ensures q.Tables() == ApplyCalendarDefault(env, old(q.Tables()), inc)
  {
    var has := HasCategory(q, SlotOf(inc.facts));
    if has || inc.calendar !in env.calendarDefault || env.calendarDefault[inc.calendar].None? {
      return;
    }
    q.UpsertOverlay(SlotOf(inc.facts), CategoryKind, CategoryOverlay(env.calendarDefault[inc.calendar].value));
  }

  method ApplySuggestedCategory(q: Queries, env: Env, inc: Incoming)
    modifies q
    ensures q.Tables() == ApplySuggestion(env, old(q.Tables()), inc)
  {
    var has := HasCategory(q, SlotOf(inc.facts));
    if has {
      return;
    }
    var suggestion := env.suggest(inc);
    if suggestion.Some? {
      q.UpsertOverlay(SlotOf(inc.facts), CategoryKind, CategoryOverlay(suggestion.value));
    }
  }

  method HandleNewEvent(q: Queries, env: Env, inc: Incoming, gaps: seq<Row>) returns (ok: bool, flagged: nat)
    modifies q
    ensures var spec := HandleNew(env, old(q.Tables()), inc, gaps);
            (ok <==> spec.Done?) && (ok ==> (q.Tables(), flagged) == spec.value)
  {
    var skipAuto;
    ok, flagged, skipAuto := FlagNewEvent(q, env, inc, gaps);
    if !ok || skipAuto {
      return;
    }
    ApplyRememberedCategory(q, env, inc);
    ApplyDefaultCategory(q, env, inc);
    ApplySuggestedCategory(q, env, inc);
  }

  // ── partitioning linked entries ─────────────────────────────────────

  function DraftRows(rows: seq<Row>): seq<Row> {
    if |rows| == 0 then []
    else DraftRows(rows[..|rows| - 1]) + (if rows[|rows| - 1].te.attestation == Draft then [rows[|rows| - 1]] else [])
  }

  lemma {:induction false} DraftRowsExact(rows: seq<Row>)
    ensures forall r :: r in DraftRows(rows) <==> r in rows && r.te.attestation == Draft
  {
    if |rows| > 0 {
      DraftRowsExact(rows[..|rows| - 1]);
      assert rows == rows[..|rows| - 1] + [rows[|rows| - 1]];
    }
  }

  method PartitionLinked(linked: seq<Row>) returns (drafts: seq<Row>, hasConfirmed: bool, allDismissed: bool)
    ensures drafts == DraftRows(linked)
    ensures hasConfirmed <==> exists r :: r in linked && r.te.attestation == Confirmed
    ensures allDismissed <==> linked != [] && forall r :: r in linked ==> r.te.attestation == Dismissed
  {
    drafts := [];
    if |linked| == 0 {
      return [], false, false;
    }
    hasConfirmed, allDismissed := false, true;
    for n := 0 to |linked|
      invariant drafts == DraftRows(linked[..n])
      invariant hasConfirmed <==> exists r :: r in linked[..n] && r.te.attestation == Confirmed
      invariant allDismissed <==> forall r :: r in linked[..n] ==> r.te.attestation == Dismissed
    {
      assert linked[..n + 1] == linked[..n] + [linked[n]];
      assert linked[..n + 1][..n] == linked[..n];
      match linked[n].te.attestation {
        case Draft =>
          drafts := drafts + [linked[n]];
          allDismissed := false;
        case Confirmed =>
          hasConfirmed := true;
          allDismissed := false;
        case Dismissed =>
      }
    }
    assert linked[..|linked|] == linked;
  }

  /** What the partition of the linked entries says about the whole listing. */
  lemma PartitionMeans(rows: seq<Row>, id: Identity)
    ensures var linked := LinkedRows(rows, id);
            && (DraftRows(linked) != [] <==> LinkedAs(rows, id, Draft))
            && ((exists r :: r in linked && r.te.attestation == Confirmed) <==> LinkedAs(rows, id, Confirmed))
            && (linked != [] && (forall r :: r in linked ==> r.te.attestation == Dismissed) <==> AllDismissed(rows, id))
  {
    var linked := LinkedRows(rows, id);
    LinkedRowsExact(rows, id);
    DraftRowsExact(linked);
    if DraftRows(linked) != [] {
      assert DraftRows(linked)[0] in DraftRows(linked);
    }
    if linked != [] {
      assert linked[0] in linked;
    }
  }

  method HandleChangedEvent(q: Queries, env: Env, ex: Event, inc: Incoming, entries: seq<Row>) returns (ok: bool, flagged: nat)
    modifies q
    ensures var spec := HandleChanged(env, old(q.Tables()), ex, inc, entries);
            (ok <==> spec.Done?) && (ok ==> (q.Tables(), flagged) == spec.value)
  {
    ok := true;
    flagged := FlagConfirmedSourceDrift(q, inc, entries);
    var categorized := HasCategory(q, SlotOf(inc.facts));
    if !categorized {
      return;
    }
    var id := IncIdentity(inc);
    var linked := LinkedCalendarEntries(entries, id);
    var liveDrafts, hasConfirmed, _ := PartitionLinked(linked);
    PartitionMeans(entries, id);
    var more: nat;
    if |liveDrafts| > 0 && !hasConfirmed && TitleMaterial(env, ex, inc) {
      if inc.status == Declined {
        ok, more := FlagChangedCategorized(q, env, ex, inc);
        flagged := flagged + more;
      }
      return;
    }
    ok, more := FlagChangedCategorized(q, env, ex, inc);
    flagged := flagged + more;
  }

  // ── materializing drafts ────────────────────────────────────────────

  method HasOpenTentativeReview(q: Queries, k: EventKey) returns (open: bool)
    ensures open <==> OpenTentative(q.Tables(), k)
  {
    var todo := set rk | rk in q.reviews && q.reviews[rk].status == Open;
    while todo != {}
      invariant forall rk :: rk in todo ==> rk in q.reviews && q.reviews[rk].status == Open
      invariant OpenTentative(q.Tables(), k) <==>
                exists rk | rk in todo :: rk.kind == TentativeEvent && q.reviews[rk].status == Open && q.reviews[rk].event == k
      decreases |todo|
    {
      var rk :| rk in todo;
      if rk.kind == TentativeEvent && q.reviews[rk].event == k {
        return true;
      }
      todo := todo - {rk};
    }
    return false;
  }

  method EffectiveCategoryOf(q: Queries, slot: Slot) returns (category: Option<int>)
    ensures category == EffectiveCategory(q.Tables(), slot)
  {
    if OverlayKey(slot, CategoryKind) !in q.overlays {
      return None;
    }
    return q.overlays[OverlayKey(slot, CategoryKind)].category;
  }

  method RefreshDraftFromEvent(q: Queries, env: Env, inc: Incoming, draft: Row) returns (ok: bool)
    requires Timed(inc.facts) && Linked(draft.te, IncIdentity(inc)) && draft.te.attestation == Draft
    modifies q
    ensures var spec := RefreshOne(env, old(q.Tables()), inc, draft);
            (ok <==> spec.Done?) && (ok ==> q.Tables() == spec.value)
  {
    if draft.te.revision == Hash(inc.facts) {
      return true;
    }
    if !env.hasTz {
      return false;
    }
    var day := env.localDay(inc.facts.start.value);
    var category := EffectiveCategoryOf(q, SlotOf(inc.facts));
    if category.None? {
      category := draft.te.category;
    }
    var span := Interval(inc.facts.start.value, inc.facts.end.value);
    if draft.id !in q.entries || q.entries[draft.id].attestation != Draft {
      return false;
    }
    ok := q.UpdateTimeEntry(draft.id,
            q.entries[draft.id].(span := span, minutes := Minutes(span), day := day, description := inc.facts.title,
                                 revision := Hash(inc.facts), category := category));
  }

  lemma {:induction false} RefreshStuck(env: Env, st: State, inc: Incoming, rows: seq<Row>, n: nat)
    requires Timed(inc.facts) && n <= |rows| && RefreshAll(env, st, inc, rows[..n]).Failed?
    ensures RefreshAll(env, st, inc, rows).Failed?
  {
    if n < |rows| {
      assert rows[..|rows| - 1][..n] == rows[..n];
      RefreshStuck(env, st, inc, rows[..|rows| - 1], n);
    } else {
      assert rows[..n] == rows;
    }
  }

  lemma {:induction false} RefreshDraftsOnly(env: Env, st: State, inc: Incoming, rows: seq<Row>)
    requires Timed(inc.facts)
    ensures RefreshAll(env, st, inc, DraftRows(LinkedRows(rows, IncIdentity(inc)))) == RefreshAll(env, st, inc, rows)
  {
    if |rows| > 0 {
      var (init, last, id) := (rows[..|rows| - 1], rows[|rows| - 1], IncIdentity(inc));
      RefreshDraftsOnly(env, st, inc, init);
      var linked := LinkedRows(init, id);
      var drafts := DraftRows(linked);
      if Linked(last.te, id) {
        assert LinkedRows(rows, id) == linked + [last] && (linked + [last])[..|linked|] == linked;
        if last.te.attestation == Draft {
          assert DraftRows(linked + [last]) == drafts + [last] && (drafts + [last])[..|drafts|] == drafts;
          assert (drafts + [last])[|drafts|] == last;
        } else {
          assert DraftRows(linked + [last]) == drafts;
        }
      } else {
        assert LinkedRows(rows, id) == linked;
      }
    }
  }

  method CreateDraftFromEvent(q: Queries, env: Env, inc: Incoming, entries: seq<Row>) returns (ok: bool, entries': seq<Row>)
    requires Timed(inc.facts)
    modifies q
    ensures ok <==> env.hasTz
    ensures ok ==>
              var te := ProposalOf(env, inc, EffectiveCategory(old(q.Tables()), SlotOf(inc.facts)));
              q.Tables() == CreateEntry(old(q.Tables()), te) && entries' == entries + [Row(old(q.nextEntry), te)]
  {
    if !env.hasTz {
      return false, entries;
    }
    var day := env.localDay(inc.facts.start.value);
    var category := EffectiveCategoryOf(q, SlotOf(inc.facts));
    var span := Interval(inc.facts.start.value, inc.facts.end.value);
    var te := TimeEntry(span, Minutes(span), day, category, inc.facts.title, Draft, Calendar(IncIdentity(inc)),
                        Hash(inc.facts), CalendarImport, DEFAULT_ALLOCATION);
    var id := q.CreateTimeEntry(te);
    return true, entries + [Row(id, te)];
  }

  lemma BumpPush(st: State, ids: set<nat>, x: nat, rev: Revision)
    ensures var was := BumpRevisions(st, ids, rev);
            BumpRevisions(st, ids + {x}, rev)
            == if x in was.entries then was.(entries := was.entries[x := was.entries[x].(revision := rev)]) else was
  {
  }

  method BumpDismissed(q: Queries, linked: seq<Row>, id: Identity, rev: Revision)
    requires forall r :: r in linked ==> Linked(r.te, id)
    modifies q
    ensures q.Tables() == BumpRevisions(old(q.Tables()), LinkedIds(linked, id), rev)
  {
    ghost var st0 := q.Tables();
    assert BumpRevisions(st0, {}, rev).entries == st0.entries;
    for n := 0 to |linked|
      invariant q.Tables() == BumpRevisions(st0, LinkedIds(linked[..n], id), rev)
    {
      hide BumpRevisions;
      assert linked[..n + 1] == linked[..n] + [linked[n]];
      assert linked[n] in linked;
      assert LinkedIds(linked[..n + 1], id) == LinkedIds(linked[..n], id) + {linked[n].id};
      BumpPush(st0, LinkedIds(linked[..n], id), linked[n].id, rev);
      if linked[n].id in q.entries {
        var _ := q.UpdateTimeEntry(linked[n].id, q.entries[linked[n].id].(revision := rev));
      }
    }
    assert linked[..|linked|] == linked;
  }

  method RefreshDrafts(q: Queries, env: Env, inc: Incoming, drafts: seq<Row>) returns (ok: bool)
    requires Timed(inc.facts)
    requires forall r :: r in drafts ==> Linked(r.te, IncIdentity(inc)) && r.te.attestation == Draft
    modifies q
    ensures var spec := RefreshAll(env, old(q.Tables()), inc, drafts);
            (ok <==> spec.Done?) && (ok ==> q.Tables() == spec.value)
  {
    ghost var st0 := q.Tables();
    for n := 0 to |drafts|
      invariant RefreshAll(env, st0, inc, drafts[..n]) == Done(q.Tables())
    {
      assert drafts[..n + 1][..n] == drafts[..n];
      assert drafts[n] in drafts;
      ok := RefreshDraftFromEvent(q, env, inc, drafts[n]);
      if !ok {
        RefreshStuck(env, st0, inc, drafts, n + 1);
        return false;
      }
    }
    assert drafts[..|drafts|] == drafts;
    return true;
  }

  method MaterializeDraftForEvent(q: Queries, env: Env, inc: Incoming, entries: seq<Row>, material: bool)
    returns (ok: bool, entries': seq<Row>)
    modifies q
    ensures var spec := Materialize(env, old(q.Tables()), inc, entries, material);
            (ok <==> spec.Done?) && (ok ==> (q.Tables(), entries') == spec.value)
  {
    hide RefreshAll, LinkedRows, DraftRows, BumpRevisions, LinkedAs, AllDismissed, OpenTentative, ProposalOf;
    ok, entries' := true, entries;
    if !DraftEligible(inc.facts) {
      return;
    }
    var id := IncIdentity(inc);
    var linked := LinkedCalendarEntries(entries, id);
    LinkedRowsExact(entries, id);
    var ok' := OverlayKey(SlotOf(inc.facts), StatusKind);
    if ok' in q.overlays && q.overlays[ok'].note == ExcludedNote {
      StaleOfLinked(entries, id);
      ok := DismissLinkedDrafts(q, linked, id);
      return;
    }
    if NeedsAnswer(inc.status) {
      var open := HasOpenTentativeReview(q, IncKey(inc));
      if open {
        return;
      }
    }
    var liveDrafts, hasConfirmed, allDismissed := PartitionLinked(linked);
    PartitionMeans(entries, id);
    DraftRowsExact(linked);
    if hasConfirmed || |liveDrafts| > 0 {
      RefreshDraftsOnly(env, q.Tables(), inc, entries);
      ok := RefreshDrafts(q, env, inc, liveDrafts);
      return;
    }
    if allDismissed && !material {
      assert LinkedIds(linked, id) == LinkedIds(entries, id);
      BumpDismissed(q, linked, id, Hash(inc.facts));
      return;
    }
    ok, entries' := CreateDraftFromEvent(q, env, inc, entries);
  }

  // ── the merge ───────────────────────────────────────────────────────

  /** One pulled event: insert, keep or update the stored fact, classify, materialize. */
  method MergePulled(q: Queries, env: Env, baseByKey: map<EventKey, Event>, inc: Incoming, entries: seq<Row>, res: Counts)
    returns (ok: bool, entries': seq<Row>, res': Counts)
    modifies q
    ensures var spec := PullOne(env, baseByKey, inc, Sync(old(q.Tables()), entries, res));
            (ok <==> spec.Done?) && (ok ==> Sync(q.Tables(), entries', res') == spec.value)
  {
    hide Materialize, HandleNew, HandleChanged;
    var flagged: nat;
    entries', res' := entries, res;
    var key := IncKey(inc);
    if key !in baseByKey {
      q.UpsertEvent(inc);
      res' := res'.(added := res'.added + 1);
      ok, flagged := HandleNewEvent(q, env, inc, entries);
      if !ok { return; }
      res' := res'.(flagged := res'.flagged + flagged);
      ok, entries' := MaterializeDraftForEvent(q, env, inc, entries, false);
      return;
    }
    var ex := baseByKey[key];
    if ex.facts == inc.facts {
      res' := res'.(kept := res'.kept + 1);
      ok, entries' := MaterializeDraftForEvent(q, env, inc, entries, false);
      return;
    }
    q.UpsertEvent(inc);
    res' := res'.(updated := res'.updated + 1);
    ok, flagged := HandleChangedEvent(q, env, ex, inc, entries);
    if !ok { return; }
    res' := res'.(flagged := res'.flagged + flagged);
    var material := TitleMaterial(env, ex, inc) || IncludeDropped(ex, inc);
    ok, entries' := MaterializeDraftForEvent(q, env, inc, entries, material);
  }

  /** One stored event: skipped when pulled or excluded, kept when it still matters, else deleted. */
  method MergeVanished(q: Queries, env: Env, seen: set<EventKey>, ev: Event, entries: seq<Row>, res: Counts)
    returns (ok: bool, res': Counts)
    modifies q
    ensures var spec := VanishOne(env, seen, ev, Sync(old(q.Tables()), entries, res));
            (ok <==> spec.Done?) && (ok ==> Sync(q.Tables(), entries, res') == spec.value)
  {
    ok, res' := true, res;
    var slot := SlotOf(ev.facts);
    if KeyOf(ev.calendar, ev.facts) in seen {
      return;
    }
    if OverlayKey(slot, StatusKind) in q.overlays && q.overlays[OverlayKey(slot, StatusKind)].note == ExcludedNote {
      return;
    }
    var categorized := HasCategory(q, slot);
    if categorized {
      var isFlagged, isRemoved;
      ok, isFlagged, isRemoved := FlagVanishedCategorized(q, env, ev);
      if isFlagged { res' := res'.(flagged := res'.flagged + 1); }
      if isRemoved { res' := res'.(removed := res'.removed + 1); }
      return;
    }
    var flagged, kept := FlagVanishedConfirmedSource(q, ev, entries);
    if kept {
      if flagged > 0 { res' := res'.(flagged := res'.flagged + flagged); }
      return;
    }
    q.DeleteEvent(KeyOf(ev.calendar, ev.facts));
    res' := res'.(removed := res'.removed + 1);
  }

  lemma {:induction false} PullStuck(env: Env, base: map<EventKey, Event>, pull: seq<Incoming>, s: Sync, n: nat)
    requires n <= |pull| && PullAll(env, base, pull[..n], s).Failed?
    ensures PullAll(env, base, pull, s).Failed?
  {
    if n < |pull| {
      assert pull[..|pull| - 1][..n] == pull[..n];
      PullStuck(env, base, pull[..|pull| - 1], s, n);
    } else {
      assert pull[..n] == pull;
    }
  }

  lemma {:induction false} VanishStuck(env: Env, seen: set<EventKey>, gone: seq<Event>, s: Sync, n: nat)
    requires n <= |gone| && VanishAll(env, seen, gone[..n], s).Failed?
    ensures VanishAll(env, seen, gone, s).Failed?
  {
    if n < |gone| {
      assert gone[..|gone| - 1][..n] == gone[..n];
      VanishStuck(env, seen, gone[..|gone| - 1], s, n);
    } else {
      assert gone[..n] == gone;
    }
  }

  /** The 3-way merge, in one transaction: an error rolls every table back. */
  method SyncPeriod(q: Queries, env: Env, incoming: seq<Incoming>) returns (ok: bool, res: Counts)
    requires env.Valid()
    modifies q
    ensures var spec := SyncEvents(env, old(q.Tables()), incoming);
            && (ok <==> spec.Done?)
            && (ok ==> (q.Tables(), res) == spec.value)
            && (!ok ==> q.Tables() == old(q.Tables()))
  {
    hide PullOne, VanishOne;
    var saved := q.Tables();
    var stored := q.events;
    var keys := env.listKeys(stored);
    assert ListsKeys(keys, stored);
    var base := seq(|keys|, i requires 0 <= i < |keys| => stored[keys[i]]);
    assert base == BaseEvents(env, stored);
    var entries := env.listRows(q.entries);
    res := Counts(0, 0, 0, 0, 0);
    ghost var s0 := Sync(saved, entries, res);
    var seen: set<EventKey> := {};
    for n := 0 to |incoming|
      invariant seen == Keys(incoming[..n])
      invariant PullAll(env, stored, incoming[..n], s0) == Done(Sync(q.Tables(), entries, res))
    {
      assert incoming[..n + 1][..n] == incoming[..n];
      assert incoming[..n + 1] == incoming[..n] + [incoming[n]];
      seen := seen + {IncKey(incoming[n])};
      ok, entries, res := MergePulled(q, env, stored, incoming[n], entries, res);
      if !ok {
        PullStuck(env, stored, incoming, s0, n + 1);
        q.Rollback(saved);
        return;
      }
    }
    assert incoming[..|incoming|] == incoming;
    ghost var s1 := Sync(q.Tables(), entries, res);
    for n := 0 to |base|
      invariant VanishAll(env, seen, base[..n], s1) == Done(Sync(q.Tables(), entries, res))
    {
      assert base[..n + 1][..n] == base[..n];
      ok, res := MergeVanished(q, env, seen, base[n], entries, res);
      if !ok {
        VanishStuck(env, seen, base, s1, n + 1);
        q.Rollback(saved);
        return;
      }
    }
    assert base[..|base|] == base;
    ok := true;
  }

  // ── user decisions on events and items ──────────────────────────────

  method ResolveReviewDecision(q: Queries, env: Env, rk: ReviewKey, action: Action) returns (ok: bool)
    modifies q
    ensures var spec := ResolveReview(env, old(q.Tables()), rk, action);
            && (ok <==> spec.Done?)
            && q.Tables() == if ok then spec.value else old(q.Tables())
  {
    hide Apply;
    if rk !in q.reviews || q.reviews[rk].status != Open {
      return false;
    }
    var saved := q.Tables();
    var item := q.reviews[rk];
    var status;
    ok, status := ApplyDecision(q, env, rk.kind, item.event, item.payload, action);
    if !ok {
      q.Rollback(saved);
      return;
    }
    q.PutReview(rk, item.(status := status, action := action));
  }

  /** The review items with the open ones of `k` among `done` closed. */
  function Closing(reviews: map<ReviewKey, Review>, k: EventKey, done: set<ReviewKey>): map<ReviewKey, Review> {
    map rk | rk in reviews ::
      if rk in done && reviews[rk].status == Open && reviews[rk].event == k
      then reviews[rk].(status := Closed, action := Exclude) else reviews[rk]
  }

  lemma ClosePush(reviews: map<ReviewKey, Review>, k: EventKey, done: set<ReviewKey>, rk: ReviewKey)
    requires rk in reviews && rk !in done && reviews[rk].status == Open
    ensures rk in Closing(reviews, k, done) && Closing(reviews, k, done)[rk] == reviews[rk]
    ensures Closing(reviews, k, done + {rk})
            == if reviews[rk].event == k
               then Closing(reviews, k, done)[rk := reviews[rk].(status := Closed, action := Exclude)]
               else Closing(reviews, k, done)
  {
  }

  method CloseOpenItems(q: Queries, k: EventKey)
    modifies q
    ensures q.Tables() == old(q.Tables()).(reviews := Closing(old(q.reviews), k, old(q.reviews).Keys))
  {
    ghost var st0 := q.Tables();
    var todo := set rk | rk in q.reviews && q.reviews[rk].status == Open;
    ghost var done: set<ReviewKey> := {};
    assert Closing(st0.reviews, k, {}) == st0.reviews;
    while todo != {}
      invariant forall rk :: rk in todo ==> rk in st0.reviews && st0.reviews[rk].status == Open && rk !in done
      invariant forall rk :: rk in st0.reviews && st0.reviews[rk].status == Open ==> rk in todo || rk in done
      invariant q.Tables() == st0.(reviews := Closing(st0.reviews, k, done))
      decreases |todo|
    {
      hide Closing;
      var rk :| rk in todo;
      ClosePush(st0.reviews, k, done, rk);
      if q.reviews[rk].event == k {
        q.PutReview(rk, q.reviews[rk].(status := Closed, action := Exclude));
      }
      todo := todo - {rk};
      done := done + {rk};
    }
    assert Closing(st0.reviews, k, done) == Closing(st0.reviews, k, st0.reviews.Keys);
  }

  method ExcludeCalendarEvent(q: Queries, env: Env, k: EventKey) returns (ok: bool)
    modifies q
    ensures var spec := ExcludeEvent(env, old(q.Tables()), k);
            && (ok <==> spec.Done?)
            && q.Tables() == if ok then spec.value else old(q.Tables())
  {
    hide DismissDraftsOf;
    if k !in q.events {
      return false;
    }
    var saved := q.Tables();
    var ev := q.events[k];
    DeleteCategoryOverlay(q, ev);
    ok := DismissCalendarDraftsForEvent(q, env, ev);
    if !ok {
      q.Rollback(saved);
      return;
    }
    MarkEventExcluded(q, ev);
    CloseOpenItems(q, k);
  }
}
