/** Draft materialization: what one call may change, that it settles the event, and that a settled
    event is left alone. */
module LedgerDrafts {
  import opened Wrappers
  import opened Intervals
  import opened LedgerTypes
  import opened LedgerSpec
  import opened LedgerSteps

  lemma BumpStep(st: State, rows: seq<Row>, id: Identity, rev: Revision)
    requires WellFormed(st) && Tracks(rows, st.entries) && AllDismissed(rows, id)
    ensures var st' := BumpRevisions(st, LinkedIds(rows, id), rev);
            && WellFormed(st') && EntriesStep(st, st', IdentityKey(id))
            && st'.entries.Keys == st.entries.Keys && Tracks(rows, st'.entries)
  {
    var ids := LinkedIds(rows, id);
    var st' := BumpRevisions(st, ids, rev);
    forall x | x in st.entries && x in ids ensures Linked(st.entries[x], id) && st.entries[x].attestation == Dismissed {
      var r :| r in rows && Linked(r.te, id) && r.id == x;
      assert EntryStep(r.te, st.entries[x]);
    }
    BumpedRows(st, ids, id, rev);
    hide WellFormed, EntriesStep, BumpRevisions, AllDismissed, LinkedIds;
    TracksSameKeys(rows, st, st', IdentityKey(id));
  }

  lemma BumpedRows(st: State, ids: set<nat>, id: Identity, rev: Revision)
    requires WellFormed(st)
    requires forall x :: x in st.entries && x in ids ==> Linked(st.entries[x], id) && st.entries[x].attestation == Dismissed
    ensures var st' := BumpRevisions(st, ids, rev);
            WellFormed(st') && EntriesStep(st, st', IdentityKey(id)) && st'.entries.Keys == st.entries.Keys
  {
  }

  lemma RefreshLocal(env: Env, st: State, inc: Incoming, rows: seq<Row>)
    requires WellFormed(st) && Tracks(rows, st.entries) && Timed(inc.facts)
    requires RefreshAll(env, st, inc, rows).Done?
    ensures var st' := RefreshAll(env, st, inc, rows).value;
            && WellFormed(st') && EntriesStep(st, st', IncKey(inc))
            && st' == st.(entries := st'.entries)
            && st'.entries.Keys == st.entries.Keys && Tracks(rows, st'.entries)
  {
    RefreshStep(env, st, inc, rows);
    var st' := RefreshAll(env, st, inc, rows).value;
    forall x | x in st.entries && st'.entries[x] != st.entries[x]
      ensures LinkedTo(st.entries[x], IncKey(inc)) && EntryStep(st.entries[x], st'.entries[x])
    {
      assert Refreshed(st, st', inc, rows, x);
      var r :| r in rows && r.id == x && Stale(r, inc);
      assert EntryStep(r.te, st.entries[x]);
    }
    TracksStep(rows, st, st', IncKey(inc));
  }

  lemma CreateStep(st: State, rows: seq<Row>, te: TimeEntry, k: EventKey)
    requires WellFormed(st) && Tracks(rows, st.entries) && LinkedTo(te, k) && te.attestation == Draft
    ensures var st' := CreateEntry(st, te);
            && WellFormed(st') && EntriesStep(st, st', k)
            && Tracks(rows + [Row(st.nextEntry, te)], st'.entries)
  {
    var st' := CreateEntry(st, te);
    var rows' := rows + [Row(st.nextEntry, te)];
    forall x | x in st'.entries && st'.entries[x].source.Calendar? ensures exists r :: r in rows' && r.id == x {
      if x == st.nextEntry {
        assert rows'[|rows|].id == x;
      } else {
        var r :| r in rows && r.id == x;
        assert r in rows';
      }
    }
  }

  /** A new proposal: an eligible, unblocked event without a live linked row in the listing, whose
      dismissed proposals, if any, stand against a material change. */
  ghost predicate Proposed(env: Env, st: State, st': State, inc: Incoming, rows: seq<Row>, rows': seq<Row>, material: bool) {
    && Unblocked(st, inc) && !LinkedAs(rows, IncIdentity(inc), Draft) && !LinkedAs(rows, IncIdentity(inc), Confirmed)
    && (AllDismissed(rows, IncIdentity(inc)) ==> material)
    && var te := ProposalOf(env, inc, EffectiveCategory(st, SlotOf(inc.facts)));
       st' == CreateEntry(st, te) && rows' == rows + [Row(st.nextEntry, te)]
  }

  predicate Unblocked(st: State, inc: Incoming) {
    && Timed(inc.facts) && !Excluded(st, SlotOf(inc.facts))
    && !(NeedsAnswer(inc.status) && OpenTentative(st, IncKey(inc)))
  }

  /** Everything one materialization may do: the listing keeps tracking the table, only entries linked
      to this event change, and the only row that may appear is a justified proposal. */
  lemma MaterializeStep(env: Env, st: State, inc: Incoming, rows: seq<Row>, material: bool)
    requires WellFormed(st) && Tracks(rows, st.entries)
    requires Materialize(env, st, inc, rows, material).Done?
    ensures var (st', rows') := Materialize(env, st, inc, rows, material).value;
            && WellFormed(st') && EntriesStep(st, st', IncKey(inc)) && Tracks(rows', st'.entries)
            && st' == st.(entries := st'.entries, nextEntry := st'.nextEntry)
            && (Proposed(env, st, st', inc, rows, rows', material)
                || (rows' == rows && st'.nextEntry == st.nextEntry && st'.entries.Keys == st.entries.Keys))
  {
    hide WellFormed, Tracks, EntriesStep;
    var id := IncIdentity(inc);
    SelfStep(st, IncKey(inc));
    if DraftEligible(inc.facts) {
      if Excluded(st, SlotOf(inc.facts)) {
        DismissStep(st, rows, id);
        var st' := DismissLinked(st, rows, id).value;
        TracksSameKeys(rows, st, st', IncKey(inc));
      } else if NeedsAnswer(inc.status) && OpenTentative(st, IncKey(inc)) {
      } else if LinkedAs(rows, id, Confirmed) || LinkedAs(rows, id, Draft) {
        RefreshLocal(env, st, inc, rows);
      } else if AllDismissed(rows, id) && !material {
        BumpStep(st, rows, id, Hash(inc.facts));
      } else {
        CreateStep(st, rows, ProposalOf(env, inc, EffectiveCategory(st, SlotOf(inc.facts))), IncKey(inc));
      }
    }
  }

  lemma SelfStep(st: State, k: EventKey)
    requires WellFormed(st)
    ensures EntriesStep(st, st, k)
  {
  }

  lemma TracksSameKeys(rows: seq<Row>, st: State, st': State, k: EventKey)
    requires Tracks(rows, st.entries) && EntriesStep(st, st', k) && st'.entries.Keys == st.entries.Keys
    ensures Tracks(rows, st'.entries)
  {
    TracksStep(rows, st, st', k);
  }

  // ── settling ────────────────────────────────────────────────────────

  ghost predicate HasLinked(st: State, id: Identity, a: Attestation) {
    exists x :: x in st.entries && Linked(st.entries[x], id) && st.entries[x].attestation == a
  }

  ghost predicate UpToDate(st: State, id: Identity, a: Attestation, rev: Revision) {
    forall x :: x in st.entries && Linked(st.entries[x], id) && st.entries[x].attestation == a ==> st.entries[x].revision == rev
  }

  /** Nothing is left for `Materialize` to do for this event, short of a material change. */
  ghost predicate Settled(st: State, inc: Incoming) {
    var id := IncIdentity(inc);
    Timed(inc.facts) ==>
      if Excluded(st, SlotOf(inc.facts)) then !HasLinked(st, id, Draft)
      else
        (NeedsAnswer(inc.status) && OpenTentative(st, IncKey(inc)))
        || ((HasLinked(st, id, Draft) || HasLinked(st, id, Confirmed)) && UpToDate(st, id, Draft, Hash(inc.facts)))
        || (HasLinked(st, id, Dismissed) && !HasLinked(st, id, Draft) && !HasLinked(st, id, Confirmed)
            && UpToDate(st, id, Dismissed, Hash(inc.facts)))
  }

  /** The listing shows the entries linked to an identity exactly as stored. */
  ghost predicate ExactFor(rows: seq<Row>, st: State, id: Identity) {
    && (forall r :: r in rows && Linked(r.te, id) ==> r.id in st.entries && st.entries[r.id] == r.te)
    && (forall x :: x in st.entries && Linked(st.entries[x], id) ==> Row(x, st.entries[x]) in rows)
  }

  lemma ExactLinked(rows: seq<Row>, st: State, id: Identity, a: Attestation)
    requires ExactFor(rows, st, id)
    ensures LinkedAs(rows, id, a) <==> HasLinked(st, id, a)
  {
    if HasLinked(st, id, a) {
      var x :| x in st.entries && Linked(st.entries[x], id) && st.entries[x].attestation == a;
      assert Row(x, st.entries[x]) in rows;
    }
  }

  lemma RefreshSettles(env: Env, st: State, inc: Incoming, rows: seq<Row>)
    requires WellFormed(st) && Timed(inc.facts) && ExactFor(rows, st, IncIdentity(inc))
    requires RefreshAll(env, st, inc, rows).Done?
    requires HasLinked(st, IncIdentity(inc), Draft) || HasLinked(st, IncIdentity(inc), Confirmed)
    ensures var st' := RefreshAll(env, st, inc, rows).value;
            var id := IncIdentity(inc);
            (HasLinked(st', id, Draft) || HasLinked(st', id, Confirmed)) && UpToDate(st', id, Draft, Hash(inc.facts))
  {
    RefreshStep(env, st, inc, rows);
    var st' := RefreshAll(env, st, inc, rows).value;
    var id := IncIdentity(inc);
    var x :| x in st.entries && Linked(st.entries[x], id) && (st.entries[x].attestation == Draft || st.entries[x].attestation == Confirmed);
    assert st'.entries[x] != st.entries[x] ==> Refreshed(st, st', inc, rows, x);
    assert Linked(st'.entries[x], id);
    forall y | y in st'.entries && Linked(st'.entries[y], id) && st'.entries[y].attestation == Draft
      ensures st'.entries[y].revision == Hash(inc.facts)
    {
      if st'.entries[y] == st.entries[y] {
        assert Row(y, st.entries[y]) in rows;
        if st.entries[y].revision != Hash(inc.facts) { assert Stale(Row(y, st.entries[y]), inc); }
      } else {
        assert Refreshed(st, st', inc, rows, y);
      }
    }
  }

  lemma BumpSettles(st: State, inc: Incoming, rows: seq<Row>)
    requires ExactFor(rows, st, IncIdentity(inc)) && AllDismissed(rows, IncIdentity(inc))
    ensures var st' := BumpRevisions(st, LinkedIds(rows, IncIdentity(inc)), Hash(inc.facts));
            var id := IncIdentity(inc);
            && HasLinked(st', id, Dismissed) && !HasLinked(st', id, Draft) && !HasLinked(st', id, Confirmed)
            && UpToDate(st', id, Dismissed, Hash(inc.facts)) && st'.overlays == st.overlays
  {
    var id := IncIdentity(inc);
    var ids := LinkedIds(rows, id);
    var st' := BumpRevisions(st, ids, Hash(inc.facts));
    forall x | x in st'.entries && Linked(st'.entries[x], id)
      ensures st'.entries[x].attestation == Dismissed && st'.entries[x].revision == Hash(inc.facts)
    {
      assert Row(x, st.entries[x]) in rows;
    }
    var r :| r in rows && Linked(r.te, id);
    assert r.id in st'.entries && Linked(st'.entries[r.id], id);
  }

  /** One materialization settles its event, if the listing is exact or the event is excluded. */
  lemma MaterializeSettles(env: Env, st: State, inc: Incoming, rows: seq<Row>, material: bool)
    requires WellFormed(st) && Tracks(rows, st.entries)
    requires Excluded(st, SlotOf(inc.facts)) || ExactFor(rows, st, IncIdentity(inc))
    requires Materialize(env, st, inc, rows, material).Done?
    ensures Settled(Materialize(env, st, inc, rows, material).value.0, inc)
  {
    hide WellFormed, Tracks, ExactFor, HasLinked, UpToDate, LinkedAs, AllDismissed, EntriesStep, OpenTentative, RefreshAll, BumpRevisions, DismissLinked, CreateEntry;
    var id := IncIdentity(inc);
    if DraftEligible(inc.facts) {
      if Excluded(st, SlotOf(inc.facts)) {
        DismissSettles(st, rows, id);
      } else if NeedsAnswer(inc.status) && OpenTentative(st, IncKey(inc)) {
      } else {
        ExactLinked(rows, st, id, Confirmed);
        ExactLinked(rows, st, id, Draft);
        if LinkedAs(rows, id, Confirmed) || LinkedAs(rows, id, Draft) {
          RefreshLocal(env, st, inc, rows);
          RefreshSettles(env, st, inc, rows);
        } else if AllDismissed(rows, id) && !material {
          BumpSettles(st, inc, rows);
        } else {
          CreateSettles(env, st, inc);
          CreateOverlays(st, ProposalOf(env, inc, EffectiveCategory(st, SlotOf(inc.facts))));
        }
      }
    }
  }

  lemma DismissSettles(st: State, rows: seq<Row>, id: Identity)
    requires WellFormed(st) && Tracks(rows, st.entries)
    ensures DismissLinked(st, rows, id).Done?
    ensures var st' := DismissLinked(st, rows, id).value; st'.overlays == st.overlays && !HasLinked(st', id, Draft)
  {
    hide WellFormed, Tracks, EntriesStep;
    DismissStep(st, rows, id);
  }

  lemma CreateOverlays(st: State, te: TimeEntry)
    ensures CreateEntry(st, te).overlays == st.overlays
  {
  }

  lemma CreateSettles(env: Env, st: State, inc: Incoming)
    requires Timed(inc.facts) && !HasLinked(st, IncIdentity(inc), Draft)
    ensures var st' := CreateEntry(st, ProposalOf(env, inc, EffectiveCategory(st, SlotOf(inc.facts))));
            HasLinked(st', IncIdentity(inc), Draft) && UpToDate(st', IncIdentity(inc), Draft, Hash(inc.facts))
  {
    var st' := CreateEntry(st, ProposalOf(env, inc, EffectiveCategory(st, SlotOf(inc.facts))));
    assert st.nextEntry in st'.entries;
  }

  lemma {:induction false} RefreshNothing(env: Env, st: State, inc: Incoming, rows: seq<Row>)
    requires Timed(inc.facts)
    requires forall r :: r in rows ==> !Stale(r, inc)
    ensures RefreshAll(env, st, inc, rows) == Done(st)
  {
    if |rows| > 0 {
      assert rows[|rows| - 1] in rows;
      RefreshNothing(env, st, inc, rows[..|rows| - 1]);
    }
  }

  /** On a settled event with a fresh listing, materialization without a material change is a no-op. */
  lemma SettledIsStable(env: Env, st: State, inc: Incoming, rows: seq<Row>)
    requires Settled(st, inc) && ExactFor(rows, st, IncIdentity(inc))
    ensures Materialize(env, st, inc, rows, false) == Done((st, rows))
  {
    var id := IncIdentity(inc);
    if DraftEligible(inc.facts) {
      ExactLinked(rows, st, id, Confirmed);
      ExactLinked(rows, st, id, Draft);
      ExactLinked(rows, st, id, Dismissed);
      if Excluded(st, SlotOf(inc.facts)) {
        assert StaleDrafts(rows, id) == {};
        assert Attest(st.entries, {}, Dismissed) == st.entries;
      } else if NeedsAnswer(inc.status) && OpenTentative(st, IncKey(inc)) {
      } else if LinkedAs(rows, id, Confirmed) || LinkedAs(rows, id, Draft) {
        forall r | r in rows ensures !Stale(r, inc) { }
        RefreshNothing(env, st, inc, rows);
      } else {
        var ids := LinkedIds(rows, id);
        assert AllDismissed(rows, id) by {
          forall r | r in rows && Linked(r.te, id) ensures r.te.attestation == Dismissed {
            assert r.te.attestation == Draft ==> LinkedAs(rows, id, Draft);
            assert r.te.attestation == Confirmed ==> LinkedAs(rows, id, Confirmed);
          }
        }
        assert BumpRevisions(st, ids, Hash(inc.facts)).entries == st.entries;
      }
    }
  }
}
