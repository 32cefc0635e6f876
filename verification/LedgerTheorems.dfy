/** What a calendar sync guarantees, for every well-formed ledger and every pull. */
module LedgerTheorems {
  import opened Wrappers
  import opened Intervals
  import opened LedgerTypes
  import opened LedgerSpec
  import opened LedgerSteps
  import opened LedgerDrafts
  import opened LedgerSync
  import opened LedgerRuns

  function Start(env: Env, st: State): Sync {
    Sync(st, env.listRows(st.entries), Counts(0, 0, 0, 0, 0))
  }

  lemma BaseListed(env: Env, st: State)
    requires env.Valid() && WellFormed(st)
    ensures var gone := BaseEvents(env, st.events);
            && Distinct(gone)
            && (forall ev :: ev in gone <==> EvKey(ev) in st.events && st.events[EvKey(ev)] == ev)
  {
    var keys := env.listKeys(st.events);
    var gone := BaseEvents(env, st.events);
    assert ListsKeys(keys, st.events);
    forall ev | ev in gone ensures EvKey(ev) in st.events && st.events[EvKey(ev)] == ev {
      var i :| 0 <= i < |gone| && gone[i] == ev;
      assert keys[i] in st.events;
    }
    forall ev | EvKey(ev) in st.events && st.events[EvKey(ev)] == ev ensures ev in gone {
      var i :| 0 <= i < |keys| && keys[i] == EvKey(ev);
      assert gone[i] == ev;
    }
    forall i, j | 0 <= i < j < |gone| ensures EvKey(gone[i]) != EvKey(gone[j]) {
      assert keys[i] in st.events && keys[j] in st.events;
    }
  }

  /** A successful sync is a pull run followed by a vanish run, each with its effect. */
  lemma SyncRuns(env: Env, st: State, pull: seq<Incoming>) returns (s1: Sync, s2: Sync)
    requires env.Valid() && WellFormed(st)
    requires SyncEvents(env, st, pull).Done?
    ensures PullAll(env, st.events, pull, Start(env, st)) == Done(s1)
    ensures VanishAll(env, Keys(pull), BaseEvents(env, st.events), s1) == Done(s2)
    ensures SyncEvents(env, st, pull) == Done((s2.st, s2.res))
    ensures PullInv(st.events, s1) && PullsEffect(st.events, pull, Start(env, st), s1)
    ensures Proposals(env, st.events, env.listRows(st.entries), st.nextEntry, pull, s1)
    ensures VanishRun(Keys(pull), BaseEvents(env, st.events), s1, s2)
  {
    var s0 := Start(env, st);
    ListingTracks(env, st);
    StartInv(env, st);
    PullAllStep(env, st.events, pull, s0);
    s1 := PullAll(env, st.events, pull, s0).value;
    BaseListed(env, st);
    StoredForVanish(env, st, pull, s1);
    VanishAllStep(env, Keys(pull), BaseEvents(env, st.events), s1);
    s2 := VanishAll(env, Keys(pull), BaseEvents(env, st.events), s1).value;
  }

  lemma StartInv(env: Env, st: State)
    requires env.Valid() && WellFormed(st)
    ensures PullInv(st.events, Start(env, st))
  {
    ListingTracks(env, st);
  }

  lemma StoredForVanish(env: Env, st: State, pull: seq<Incoming>, s1: Sync)
    requires env.Valid() && WellFormed(st)
    requires PullInv(st.events, s1) && PullsEffect(st.events, pull, Start(env, st), s1)
    ensures VanishInv(s1)
    ensures forall ev :: ev in BaseEvents(env, st.events) && EvKey(ev) !in Keys(pull)
              ==> EvKey(ev) in s1.st.events && s1.st.events[EvKey(ev)].facts == ev.facts
  {
    BaseListed(env, st);
    forall ev | ev in BaseEvents(env, st.events) && EvKey(ev) !in Keys(pull)
      ensures EvKey(ev) in s1.st.events && s1.st.events[EvKey(ev)].facts == ev.facts
    {
      assert KeyFrame(st, s1.st, EvKey(ev));
    }
  }

  // ── rows ────────────────────────────────────────────────────────────

  /** A sync loses no row, leaves every confirmed row wholly unchanged, never touches provenance, and
      otherwise only dismisses drafts, refreshes drafts or bumps the revision of dismissed rows. */
  lemma SyncKeepsRows(env: Env, st: State, pull: seq<Incoming>)
    requires env.Valid() && WellFormed(st) && SyncEvents(env, st, pull).Done?
    ensures var (st', _) := SyncEvents(env, st, pull).value;
            && WellFormed(st') && st.nextEntry <= st'.nextEntry
            && (forall x :: x in st.entries ==> x in st'.entries && EntryStep(st.entries[x], st'.entries[x]))
            && (forall x :: x in st.entries && st.entries[x].attestation == Confirmed ==> st'.entries[x] == st.entries[x])
            && (forall x :: x in st'.entries && x !in st.entries ==> st.nextEntry <= x)
  {
    var s1, s2 := SyncRuns(env, st, pull);
    hide PullAll, VanishAll, SyncEvents, PullInv, Proposals, Framed, Fated, ItemsFate, OpenItems, LostItems, ReviewsKept, ExclusionKept;
    assert WellFormed(s2.st);
    EvolvedTrans(st, s1.st, s2.st);
  }

  /** No event identity gets a second live draft: a linked row created by a sync answers a pulled,
      timed event with no live row, is the only new row of its identity, and revives an all-dismissed
      proposal only on a title change or a drop out of the included statuses. */
  lemma NoSecondDraft(env: Env, st: State, pull: seq<Incoming>, x: nat)
    requires env.Valid() && WellFormed(st) && SyncEvents(env, st, pull).Done?
    requires var (st', _) := SyncEvents(env, st, pull).value;
             x in st'.entries && x !in st.entries && st'.entries[x].source.Calendar?
    ensures var (st', _) := SyncEvents(env, st, pull).value;
            var id := st'.entries[x].source.id;
            && !HasLinked(st, id, Draft) && !HasLinked(st, id, Confirmed)
            && (forall y :: y in st'.entries && y !in st.entries && Linked(st'.entries[y], id) ==> y == x)
            && (exists inc :: inc in pull && IncIdentity(inc) == id && Timed(inc.facts)
                  && (HasLinked(st, id, Dismissed) ==> Material(env, st.events, inc)))
  {
    var s1, s2 := SyncRuns(env, st, pull);
    var st' := s2.st;
    var id := st'.entries[x].source.id;
    var rows0 := env.listRows(st.entries);
    NewLinkedFromPull(st, s1, s2, pull, BaseEvents(env, st.events), x);
    forall y | y in st'.entries && y !in st.entries && Linked(st'.entries[y], id) ensures y == x {
      NewLinkedFromPull(st, s1, s2, pull, BaseEvents(env, st.events), y);
    }
    var inc :| inc in pull && Justified(env, st.events, rows0, inc, s1.st.entries[x]);
    ListingExact(env, st, id);
    hide PullAll, VanishAll, SyncEvents, PullInv, Proposals, PullsEffect, VanishRun;
    ExactLinked(rows0, st, id, Draft);
    ExactLinked(rows0, st, id, Confirmed);
    ExactDismissed(rows0, st, id);
  }

  lemma NewLinkedFromPull(st: State, s1: Sync, s2: Sync, pull: seq<Incoming>, gone: seq<Event>, x: nat)
    requires VanishRun(Keys(pull), gone, s1, s2) && Evolved(st, s1.st)
    requires x in s2.st.entries && x !in st.entries && s2.st.entries[x].source.Calendar?
    ensures x in s1.st.entries && st.nextEntry <= x && s1.st.entries[x].source == s2.st.entries[x].source
  {
    assert x in s1.st.entries;
    assert EntryStep(s1.st.entries[x], s2.st.entries[x]);
  }

  lemma ListingExact(env: Env, st: State, id: Identity)
    requires env.Valid()
    ensures ExactFor(env.listRows(st.entries), st, id)
  {
    assert Lists(env.listRows(st.entries), st.entries);
  }

  lemma ExactDismissed(rows: seq<Row>, st: State, id: Identity)
    requires ExactFor(rows, st, id) && !HasLinked(st, id, Draft) && !HasLinked(st, id, Confirmed)
    ensures HasLinked(st, id, Dismissed) ==> AllDismissed(rows, id)
  {
    if HasLinked(st, id, Dismissed) {
      var x :| x in st.entries && Linked(st.entries[x], id) && st.entries[x].attestation == Dismissed;
      assert Row(x, st.entries[x]) in rows;
      forall r | r in rows && Linked(r.te, id) ensures r.te.attestation == Dismissed {
        assert r.te.attestation != Draft && r.te.attestation != Confirmed;
      }
    }
  }

  // ── review items ────────────────────────────────────────────────────

  /** Conservation of open items: a sync raises the number of open items by exactly `flagged`, less the
      open items of the events it deletes. */
  lemma SyncConservesOpenItems(env: Env, st: State, pull: seq<Incoming>)
    requires env.Valid() && WellFormed(st) && SyncEvents(env, st, pull).Done?
    ensures var (st', res) := SyncEvents(env, st, pull).value;
            && |OpenItems(st')| + |LostItems(st, st')| == |OpenItems(st)| + res.flagged
            && (|OpenItems(st')| == |OpenItems(st)| + res.flagged <==> LostItems(st, st') == {})
  {
    hide OpenItems, LostItems, PullsEffect, PullInv, WellFormed, Proposals, PullAll, VanishAll, SyncEvents, BaseEvents;
    var s1, s2 := SyncRuns(env, st, pull);
    SameLost(env, st, pull, s1, s2);
    PullsCount(env, st, pull, s1);
    VanishCount(Keys(pull), BaseEvents(env, st.events), s1, s2);
  }

  lemma PullsCount(env: Env, st: State, pull: seq<Incoming>, s1: Sync)
    requires PullsEffect(st.events, pull, Start(env, st), s1)
    ensures |OpenItems(s1.st)| == |OpenItems(st)| + s1.res.flagged
  {
    hide OpenItems;
  }

  lemma VanishCount(seen: set<EventKey>, gone: seq<Event>, s1: Sync, s2: Sync)
    requires VanishRun(seen, gone, s1, s2)
    ensures |OpenItems(s2.st)| + |LostItems(s1.st, s2.st)| + s1.res.flagged == |OpenItems(s1.st)| + s2.res.flagged
  {
    hide OpenItems, LostItems;
  }

  lemma SameLost(env: Env, st: State, pull: seq<Incoming>, s1: Sync, s2: Sync)
    requires env.Valid() && WellFormed(st)
    requires PullInv(st.events, s1) && PullsEffect(st.events, pull, Start(env, st), s1)
    requires VanishRun(Keys(pull), BaseEvents(env, st.events), s1, s2)
    ensures LostItems(s1.st, s2.st) == LostItems(st, s2.st)
  {
    hide WellFormed, PullInv, PullsEffect, VanishRun, BaseEvents, LostItems;
    forall rk: ReviewKey ensures rk in LostItems(s1.st, s2.st) <==> rk in LostItems(st, s2.st) {
      if IdentityKey(rk.identity) in Keys(pull) {
        PulledItemKept(env, st, pull, s1, s2, rk);
      } else {
        UnpulledItemSame(env, st, pull, s1, s2, rk);
      }
    }
  }

  lemma PulledItemKept(env: Env, st: State, pull: seq<Incoming>, s1: Sync, s2: Sync, rk: ReviewKey)
    requires env.Valid() && WellFormed(st) && IdentityKey(rk.identity) in Keys(pull)
    requires PullInv(st.events, s1) && VanishRun(Keys(pull), BaseEvents(env, st.events), s1, s2)
    ensures rk !in LostItems(st, s2.st) && rk !in LostItems(s1.st, s2.st)
  {
    PulledNotLost(env, st, pull, s1, s2, IdentityKey(rk.identity));
    assert WellFormed(s1.st);
    hide VanishRun, BaseEvents, Tracks, NoOldDecisions;
    ItemsKeyed(st);
    ItemsKeyed(s1.st);
  }

  lemma UnpulledItemSame(env: Env, st: State, pull: seq<Incoming>, s1: Sync, s2: Sync, rk: ReviewKey)
    requires env.Valid() && PullsEffect(st.events, pull, Start(env, st), s1) && IdentityKey(rk.identity) !in Keys(pull)
    ensures rk in LostItems(st, s2.st) <==> rk in LostItems(s1.st, s2.st)
  {
    hide Evolved, ReviewsKept, ExclusionKept, Fated;
    assert KeyFrame(st, s1.st, IdentityKey(rk.identity));
    assert SameAt(st.reviews, s1.st.reviews, rk);
  }

  lemma PulledNotLost(env: Env, st: State, pull: seq<Incoming>, s1: Sync, s2: Sync, k: EventKey)
    requires env.Valid() && k in Keys(pull)
    requires PullInv(st.events, s1) && VanishRun(Keys(pull), BaseEvents(env, st.events), s1, s2)
    ensures k in s1.st.events <==> k in s2.st.events
    ensures k in st.events ==> k in s1.st.events
  {
    assert k !in GoneKeys(Keys(pull), BaseEvents(env, st.events));
    assert KeyFrame(s1.st, s2.st, k);
  }

  /** Items go only with their event, no open item is closed, no closed item is rewritten, and only
      source drift reopens. */
  lemma SyncKeepsItems(env: Env, st: State, pull: seq<Incoming>)
    requires env.Valid() && WellFormed(st) && SyncEvents(env, st, pull).Done?
    ensures ItemsFate(st, SyncEvents(env, st, pull).value.0)
  {
    var s1, s2 := SyncRuns(env, st, pull);
    assert WellFormed(s1.st) && WellFormed(s2.st);
    ItemsKeyed(s2.st);
    hide PullAll, VanishAll, SyncEvents, PullInv, Proposals, Framed, Fated, Evolved, OpenItems, LostItems, ExclusionKept, VanishInv, WellFormed;
    ItemsFateTrans(st, s1.st, s2.st);
  }

  lemma ItemsFateTrans(a: State, b: State, c: State)
    requires ReviewsKept(a, b) && ItemsFate(b, c)
    ensures ItemsFate(a, c)
  {
  }

  // ── overlays ────────────────────────────────────────────────────────

  /** Exclusions are never lifted by a sync, and a category overlay survives it unchanged, except the
      overlay of an event new in this pull, or where a recorded drop or keep decision is replayed. */
  lemma SyncKeepsOverlays(env: Env, st: State, pull: seq<Incoming>, slot: Slot)
    requires env.Valid() && WellFormed(st) && SyncEvents(env, st, pull).Done?
    ensures var (st', _) := SyncEvents(env, st, pull).value;
            && (Excluded(st, slot) ==> Excluded(st', slot))
            && (slot !in NewSlots(st.events, pull) ==> CategoryFate(st, st', slot))
  {
    var s1, s2 := SyncRuns(env, st, pull);
    KeptClosed(st, s1.st);
    hide PullAll, VanishAll, SyncEvents, PullInv, Proposals, Framed, Evolved, OpenItems, LostItems, VanishInv, ItemsFate, CategoryFate, ClosedKept, ReviewsKept;
    if slot !in NewSlots(st.events, pull) {
      CategoryFateTrans(st, s1.st, s2.st, slot);
    }
  }
}
