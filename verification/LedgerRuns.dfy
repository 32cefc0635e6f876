/** The two loops of a sync, over every pull: what the whole merge keeps. */
module LedgerRuns {
  import opened Wrappers
  import opened Intervals
  import opened LedgerTypes
  import opened LedgerSpec
  import opened LedgerSteps
  import opened LedgerDrafts
  import opened LedgerSync

  // ── frames ──────────────────────────────────────────────────────────

  /** Event `k`, its review items and its linked entries are untouched. */
  ghost predicate KeyFrame(st: State, st': State, k: EventKey) {
    && SameAt(st.events, st'.events, k)
    && (forall rk: ReviewKey :: IdentityKey(rk.identity) == k ==> SameAt(st.reviews, st'.reviews, rk))
    && (forall x :: x in st.entries && LinkedTo(st.entries[x], k) ==> x in st'.entries && st'.entries[x] == st.entries[x])
    && (forall x :: x in st'.entries && LinkedTo(st'.entries[x], k) ==> x in st.entries && st'.entries[x] == st.entries[x])
  }

  ghost predicate SlotFrame(st: State, st': State, slot: Slot) {
    && SameAt(st.overlays, st'.overlays, OverlayKey(slot, CategoryKind))
    && SameAt(st.overlays, st'.overlays, OverlayKey(slot, StatusKind))
  }

  /** No row is lost, and every row evolves as a sync allows. */
  ghost predicate Evolved(st: State, st': State) {
    && st.nextEntry <= st'.nextEntry
    && (forall x :: x in st.entries ==> x in st'.entries)
    && (forall x :: x in st.entries ==> EntryStep(st.entries[x], st'.entries[x]))
    && (forall x :: x in st'.entries && x !in st.entries ==> st.nextEntry <= x)
  }

  lemma LocalFrames(st: State, st': State, k0: EventKey, slot0: Slot)
    requires Local(st, st', k0, slot0)
    ensures Evolved(st, st')
    ensures forall k :: k != k0 ==> KeyFrame(st, st', k)
    ensures forall slot :: slot != slot0 ==> SlotFrame(st, st', slot)
  {
    forall k | k != k0 ensures KeyFrame(st, st', k) {
      forall x | x in st'.entries && LinkedTo(st'.entries[x], k) ensures x in st.entries && st'.entries[x] == st.entries[x] {
        if x in st.entries { assert EntryStep(st.entries[x], st'.entries[x]); }
      }
    }
  }

  lemma KeyFrameTrans(a: State, b: State, c: State, k: EventKey)
    requires KeyFrame(a, b, k) && KeyFrame(b, c, k)
    ensures KeyFrame(a, c, k)
  {
    forall rk: ReviewKey | IdentityKey(rk.identity) == k ensures SameAt(a.reviews, c.reviews, rk) {
      assert SameAt(a.reviews, b.reviews, rk) && SameAt(b.reviews, c.reviews, rk);
    }
  }

  lemma EvolvedTrans(a: State, b: State, c: State)
    requires Evolved(a, b) && Evolved(b, c)
    ensures Evolved(a, c)
  {
    forall x | x in a.entries ensures EntryStep(a.entries[x], c.entries[x]) {
      assert EntryStep(a.entries[x], b.entries[x]) && EntryStep(b.entries[x], c.entries[x]);
    }
  }

  function Slots(pull: seq<Incoming>): set<Slot> {
    set inc | inc in pull :: SlotOf(inc.facts)
  }

  function NewSlots(base: map<EventKey, Event>, pull: seq<Incoming>): set<Slot> {
    set inc | inc in pull && IncKey(inc) !in base :: SlotOf(inc.facts)
  }

  // ── the pull loop ───────────────────────────────────────────────────

  /** Only the given events and overlay slots are touched. */
  ghost predicate Framed(st: State, st': State, keys: set<EventKey>, slots: set<Slot>) {
    && (forall k :: k !in keys ==> KeyFrame(st, st', k))
    && (forall slot :: slot !in slots ==> SlotFrame(st, st', slot))
  }

  ghost predicate Fated(st: State, st': State, except: set<Slot>) {
    forall slot :: slot !in except ==> CategoryFate(st, st', slot)
  }

  ghost predicate PullsEffect(base: map<EventKey, Event>, pull: seq<Incoming>, s: Sync, s': Sync) {
    && Evolved(s.st, s'.st) && ReviewsKept(s.st, s'.st) && ExclusionKept(s.st, s'.st)
    && Framed(s.st, s'.st, Keys(pull), Slots(pull))
    && Fated(s.st, s'.st, NewSlots(base, pull))
    && |OpenItems(s'.st)| + s.res.flagged == |OpenItems(s.st)| + s'.res.flagged
    && s'.res.removed == s.res.removed
  }

  lemma FramedStep(a: State, b: State, c: State, keys: set<EventKey>, slots: set<Slot>, k0: EventKey, slot0: Slot)
    requires Framed(a, b, keys, slots) && Local(b, c, k0, slot0)
    ensures Framed(a, c, keys + {k0}, slots + {slot0})
  {
    LocalFrames(b, c, k0, slot0);
    hide Local, Evolved;
    forall k | k !in keys + {k0} ensures KeyFrame(a, c, k) {
      KeyFrameTrans(a, b, c, k);
    }
  }

  lemma FatedStep(a: State, b: State, c: State, except: set<Slot>, more: set<Slot>)
    requires Fated(a, b, except) && ClosedKept(a, b) && ExclusionKept(b, c)
    requires forall slot :: slot !in more ==> CategoryFate(b, c, slot)
    ensures Fated(a, c, except + more)
  {
    hide ClosedKept, Recorded;
    forall slot | slot !in except + more ensures CategoryFate(a, c, slot) {
      CategoryFateTrans(a, b, c, slot);
    }
  }

  lemma PullFates(env: Env, base: map<EventKey, Event>, inc: Incoming, s: Sync, s': Sync)
    requires PullEffect(env, base, inc, s, s')
    ensures forall slot :: slot !in NewSlots(base, [inc]) ==> CategoryFate(s.st, s'.st, slot)
  {
    LocalFrames(s.st, s'.st, IncKey(inc), SlotOf(inc.facts));
    hide Local, Evolved, KeyFrame, Grew, ReviewsKept, OpenItems;
    assert IncKey(inc) !in base ==> SlotOf([inc][0].facts) in NewSlots(base, [inc]);
  }

  lemma PullsEffectStep(env: Env, base: map<EventKey, Event>, init: seq<Incoming>, inc: Incoming, s: Sync, mid: Sync, s': Sync)
    requires PullsEffect(base, init, s, mid) && PullEffect(env, base, inc, mid, s')
    ensures PullsEffect(base, init + [inc], s, s')
  {
    hide Local, EntryStep, Grew, ReviewsKept, OpenItems, CategoryFate, CategoriesKept, ExclusionKept, Framed, Fated, Evolved, KeyOf, ClosedKept;
    var pull := init + [inc];
    PullFates(env, base, inc, mid, s');
    assert Keys(pull) == Keys(init) + {IncKey(inc)};
    assert Slots(pull) == Slots(init) + {SlotOf(inc.facts)};
    assert NewSlots(base, pull) == NewSlots(base, init) + NewSlots(base, [inc]);
    PullEvolved(env, base, inc, mid, s');
    EvolvedTrans(s.st, mid.st, s'.st);
    ReviewsKeptTrans(s.st, mid.st, s'.st);
    KeptClosed(s.st, mid.st);
    ExclusionKeptTrans(s.st, mid.st, s'.st);
    FramedStep(s.st, mid.st, s'.st, Keys(init), Slots(init), IncKey(inc), SlotOf(inc.facts));
    FatedStep(s.st, mid.st, s'.st, NewSlots(base, init), NewSlots(base, [inc]));
  }

  lemma ExclusionKeptTrans(a: State, b: State, c: State)
    requires ExclusionKept(a, b) && ExclusionKept(b, c)
    ensures ExclusionKept(a, c)
  {
  }

  lemma KeptClosed(a: State, b: State)
    requires ReviewsKept(a, b)
    ensures ClosedKept(a, b)
  {
  }

  lemma ReviewsKeptTrans(a: State, b: State, c: State)
    requires ReviewsKept(a, b) && ReviewsKept(b, c)
    ensures ReviewsKept(a, c)
  {
  }

  lemma PullAllStart(env: Env, base: map<EventKey, Event>, s: Sync)
    requires PullInv(base, s)
    ensures PullsEffect(base, [], s, s) && Proposals(env, base, s.rows, s.st.nextEntry, [], s)
  {
  }

  // ── proposals ───────────────────────────────────────────────────────

  /** A row created by the sync answers a pulled, timed event that had no live linked row at the start
      and, where every linked row had been dismissed, underwent a material change. */
  ghost predicate Justified(env: Env, base: map<EventKey, Event>, rows0: seq<Row>, inc: Incoming, te: TimeEntry) {
    var id := IncIdentity(inc);
    && Linked(te, id) && Timed(inc.facts) && !LinkedAs(rows0, id, Draft) && !LinkedAs(rows0, id, Confirmed)
    && (AllDismissed(rows0, id) ==> Material(env, base, inc))
  }

  ghost predicate Proposals(env: Env, base: map<EventKey, Event>, rows0: seq<Row>, n0: nat, pull: seq<Incoming>, s: Sync) {
    && (forall r :: r in rows0 ==> r in s.rows)
    && (forall x :: x in s.st.entries && n0 <= x ==> exists inc :: inc in pull && Justified(env, base, rows0, inc, s.st.entries[x]))
    && (forall x :: x in s.st.entries && n0 <= x ==>
          exists r :: r in s.rows && r.id == x && r.te.attestation == Draft && r.te.source == s.st.entries[x].source)
    && (forall x, y :: x in s.st.entries && n0 <= x && y in s.st.entries && n0 <= y && x != y
          ==> s.st.entries[x].source != s.st.entries[y].source)
    && n0 <= s.st.nextEntry
  }

  lemma ProposalsStep(env: Env, base: map<EventKey, Event>, rows0: seq<Row>, n0: nat, init: seq<Incoming>, inc: Incoming, s: Sync, s': Sync)
    requires Proposals(env, base, rows0, n0, init, s) && Grew(env, base, inc, s, s')
    requires Evolved(s.st, s'.st)
    ensures Proposals(env, base, rows0, n0, init + [inc], s')
  {
    var (id, n) := (IncIdentity(inc), s.st.nextEntry);
    var pull := init + [inc];
    forall x | x in s.st.entries ensures s'.st.entries[x].source == s.st.entries[x].source {
      assert EntryStep(s.st.entries[x], s'.st.entries[x]);
    }
    hide EntryStep, AllDismissed, LinkedAs, Material;
    forall x | x in s.st.entries && n0 <= x
      ensures exists i :: i in pull && Justified(env, base, rows0, i, s'.st.entries[x])
    {
      var i :| i in init && Justified(env, base, rows0, i, s.st.entries[x]);
      assert i in pull && Justified(env, base, rows0, i, s'.st.entries[x]);
    }
    if s'.rows != s.rows {
      assert s'.rows[|s.rows|] == Row(n, s'.st.entries[n]);
      NewRowJustified(env, base, rows0, inc, s, s'.st.entries[n]);
      assert inc in pull && Justified(env, base, rows0, inc, s'.st.entries[n]);
      forall x | x in s.st.entries && n0 <= x ensures s'.st.entries[x].source != s'.st.entries[n].source {
        var r :| r in s.rows && r.id == x && r.te.attestation == Draft && r.te.source == s.st.entries[x].source;
        if r.te.source == Calendar(id) { LinkedAsRow(s.rows, r, id); }
      }
    }
  }

  lemma LinkedAsRow(rows: seq<Row>, r: Row, id: Identity)
    requires r in rows && Linked(r.te, id)
    ensures LinkedAs(rows, id, r.te.attestation)
  {
  }

  lemma NewRowJustified(env: Env, base: map<EventKey, Event>, rows0: seq<Row>, inc: Incoming, s: Sync, te: TimeEntry)
    requires forall r :: r in rows0 ==> r in s.rows
    requires var id := IncIdentity(inc);
             && Timed(inc.facts) && !LinkedAs(s.rows, id, Draft) && !LinkedAs(s.rows, id, Confirmed)
             && (AllDismissed(s.rows, id) ==> Material(env, base, inc)) && Linked(te, id)
    ensures Justified(env, base, rows0, inc, te)
  {
    var id := IncIdentity(inc);
    if AllDismissed(rows0, id) {
      forall r | r in s.rows && Linked(r.te, id) ensures r.te.attestation == Dismissed {
        LinkedAsRow(s.rows, r, id);
      }
    }
  }

  lemma {:induction false} PullAllStep(env: Env, base: map<EventKey, Event>, pull: seq<Incoming>, s: Sync)
    requires env.Valid() && PullInv(base, s)
    requires PullAll(env, base, pull, s).Done?
    ensures var s' := PullAll(env, base, pull, s).value;
            && PullInv(base, s') && PullsEffect(base, pull, s, s')
            && Proposals(env, base, s.rows, s.st.nextEntry, pull, s')
  {
    hide PullInv, PullsEffect, PullEffect, Proposals, PullOne, Evolved, Grew;
    if |pull| == 0 {
      PullAllStart(env, base, s);
      assert pull == [];
    } else {
      var init, inc := pull[..|pull| - 1], pull[|pull| - 1];
      PullAllStep(env, base, init, s);
      var mid := PullAll(env, base, init, s).value;
      PullOneStep(env, base, inc, mid);
      var s' := PullOne(env, base, inc, mid).value;
      assert pull == init + [inc];
      PullsEffectStep(env, base, init, inc, s, mid, s');
      PullEvolved(env, base, inc, mid, s');
      ProposalsStep(env, base, s.rows, s.st.nextEntry, init, inc, mid, s');
    }
  }

  lemma PullEvolved(env: Env, base: map<EventKey, Event>, inc: Incoming, s: Sync, s': Sync)
    requires PullEffect(env, base, inc, s, s')
    ensures Evolved(s.st, s'.st) && Grew(env, base, inc, s, s')
  {
    hide Grew;
    LocalFrames(s.st, s'.st, IncKey(inc), SlotOf(inc.facts));
  }

  // ── the vanish loop ─────────────────────────────────────────────────

  function EvKey(ev: Event): EventKey { KeyOf(ev.calendar, ev.facts) }

  /** The keys and slots of the listed events that the pull did not report. */
  function GoneKeys(seen: set<EventKey>, gone: seq<Event>): set<EventKey> {
    set ev | ev in gone && EvKey(ev) !in seen :: EvKey(ev)
  }

  function GoneSlots(seen: set<EventKey>, gone: seq<Event>): set<Slot> {
    set ev | ev in gone && EvKey(ev) !in seen :: SlotOf(ev.facts)
  }

  ghost predicate Distinct(gone: seq<Event>) {
    forall i, j :: 0 <= i < j < |gone| ==> EvKey(gone[i]) != EvKey(gone[j])
  }

  /** Open items of `st` whose event is no longer stored in `st'`. */
  function LostItems(st: State, st': State): set<ReviewKey> {
    set rk | rk in OpenItems(st) && IdentityKey(rk.identity) !in st'.events
  }

  /** Items survive as in `ReviewsKept`, unless their event was deleted. */
  ghost predicate ItemsFate(st: State, st': State) {
    && ClosedKept(st, st')
    && (forall rk :: rk in st.reviews && rk !in st'.reviews ==> IdentityKey(rk.identity) !in st'.events)
    && (forall rk :: rk in st.reviews && rk in st'.reviews && st.reviews[rk].status == Open ==> st'.reviews[rk].status == Open)
    && (forall rk :: rk in st.reviews && rk in st'.reviews && rk.kind != SourceDrift ==> st'.reviews[rk] == st.reviews[rk])
  }

  ghost predicate VanishRun(seen: set<EventKey>, gone: seq<Event>, s: Sync, s': Sync) {
    && VanishInv(s') && s'.rows == s.rows && s'.res.flagged >= s.res.flagged
    && (forall k :: k in s'.st.events ==> k in s.st.events && s'.st.events[k] == s.st.events[k])
    && Evolved(s.st, s'.st) && ExclusionKept(s.st, s'.st) && ItemsFate(s.st, s'.st)
    && Framed(s.st, s'.st, GoneKeys(seen, gone), GoneSlots(seen, gone)) && Fated(s.st, s'.st, {})
    && |OpenItems(s'.st)| + |LostItems(s.st, s'.st)| + s.res.flagged == |OpenItems(s.st)| + s'.res.flagged
    && (forall x :: x in s'.st.entries && x !in s.st.entries ==> !s'.st.entries[x].source.Calendar?)
  }

  lemma VanishRunStart(seen: set<EventKey>, s: Sync)
    requires VanishInv(s)
    ensures VanishRun(seen, [], s, s)
  {
    assert LostItems(s.st, s.st) == {};
  }

  /** Common facts of one vanish step, retained or deleted. */
  ghost predicate VanishStep(ev: Event, s: Sync, s': Sync) {
    && VanishInv(s') && s'.rows == s.rows && s'.res.flagged >= s.res.flagged
    && Local(s.st, s'.st, EvKey(ev), SlotOf(ev.facts))
    && ExclusionKept(s.st, s'.st) && CategoriesKept(s.st, s'.st)
    && (forall x :: x in s'.st.entries && x !in s.st.entries ==> !s'.st.entries[x].source.Calendar?)
    && ((s'.st.events == s.st.events && ReviewsKept(s.st, s'.st)
         && |OpenItems(s'.st)| + s.res.flagged == |OpenItems(s.st)| + s'.res.flagged)
        || (s'.st == DeleteEvent(s.st, EvKey(ev)) && s'.res.flagged == s.res.flagged))
  }

  lemma VanishStepOf(seen: set<EventKey>, ev: Event, s: Sync, s': Sync)
    requires VanishInv(s) && VanishEffect(seen, ev, s, s')
    ensures VanishStep(ev, s, s')
  {
    if Stays(seen, ev, s) {
      hide WellFormed, EntryStep, ReviewsKept, CategoriesKept, ExclusionKept, OpenItems, Stays, DeleteEvent;
      assert Local(s.st, s'.st, EvKey(ev), SlotOf(ev.facts));
      TracksStep(s.rows, s.st, s'.st, EvKey(ev));
    } else {
      DeleteStep(s.st, EvKey(ev), SlotOf(ev.facts));
      assert s'.st.entries == s.st.entries;
      hide WellFormed, Local, Stays, CategoriesKept;
    }
  }

  lemma ItemsFateStep(a: State, b: State, c: State, k: EventKey)
    requires ItemsFate(a, b) && (ReviewsKept(b, c) || c == DeleteEvent(b, k))
    requires c.events.Keys <= b.events.Keys
    requires forall rk :: rk in b.reviews ==> b.reviews[rk].event == IdentityKey(rk.identity)
    requires forall rk :: rk in c.reviews ==> IdentityKey(rk.identity) in c.events
    ensures ItemsFate(a, c)
  {
  }

  lemma LostStep(a: State, b: State, c: State, k: EventKey)
    requires WellFormed(b) && KeyFrame(a, b, k) && c == DeleteEvent(b, k)
    ensures |OpenItems(c)| + |LostItems(a, c)| == |OpenItems(b)| + |LostItems(a, b)|
  {
    var lost := OpenAt(b, k);
    OpenAfterDelete(b, k);
    OpenAtStored(b, k);
    hide WellFormed;
    SameOpenAt(a, b, k);
    hide KeyFrame, OpenItems;
    assert lost <= OpenItems(b);
    if k in b.events {
      SplitLost(a, b, c, k, lost);
    } else {
      assert c.events == b.events;
      assert LostItems(a, c) == LostItems(a, b);
    }
  }

  lemma OpenAtStored(st: State, k: EventKey)
    requires WellFormed(st)
    ensures k !in st.events ==> OpenAt(st, k) == {}
  {
  }

  lemma SameOpenAt(a: State, b: State, k: EventKey)
    requires KeyFrame(a, b, k)
    ensures forall rk: ReviewKey :: IdentityKey(rk.identity) == k ==> (rk in OpenItems(a) <==> rk in OpenItems(b))
  {
    forall rk: ReviewKey | IdentityKey(rk.identity) == k ensures rk in OpenItems(a) <==> rk in OpenItems(b) {
      assert SameAt(a.reviews, b.reviews, rk);
    }
  }

  lemma SplitLost(a: State, b: State, c: State, k: EventKey, lost: set<ReviewKey>)
    requires c.events == b.events - {k} && k in b.events && lost == OpenAt(b, k)
    requires forall rk: ReviewKey :: IdentityKey(rk.identity) == k ==> (rk in OpenItems(a) <==> rk in OpenItems(b))
    ensures |LostItems(a, c)| == |LostItems(a, b)| + |lost|
  {
    hide OpenItems;
    assert LostItems(a, c) == LostItems(a, b) + lost;
    assert LostItems(a, b) !! lost;
  }

  lemma OpenAfterDelete(st: State, k: EventKey)
    requires forall rk :: rk in st.reviews ==> st.reviews[rk].event == IdentityKey(rk.identity)
    ensures OpenItems(DeleteEvent(st, k)) == OpenItems(st) - OpenAt(st, k)
  {
  }

  lemma VanishRunStep(seen: set<EventKey>, init: seq<Event>, ev: Event, s: Sync, mid: Sync, s': Sync)
    requires WellFormed(s.st) && VanishRun(seen, init, s, mid) && VanishStep(ev, mid, s')
    requires EvKey(ev) !in GoneKeys(seen, init) && EvKey(ev) !in seen
    ensures VanishRun(seen, init + [ev], s, s')
  {
    hide WellFormed, DeleteEvent, Tracks, Framed, Fated, Local, Evolved, ItemsFate, KeyFrame, SlotFrame, ReviewsKept, ClosedKept, OpenItems, LostItems, CategoryFate, EntryStep;
    var gone := init + [ev];
    assert GoneKeys(seen, gone) == GoneKeys(seen, init) + {EvKey(ev)};
    assert GoneSlots(seen, gone) == GoneSlots(seen, init) + {SlotOf(ev.facts)};
    VanishCounts(seen, init, ev, s, mid, s');
    VanishItems(seen, init, ev, s, mid, s');
    LocalFrames(mid.st, s'.st, EvKey(ev), SlotOf(ev.facts));
    FramedStep(s.st, mid.st, s'.st, GoneKeys(seen, init), GoneSlots(seen, init), EvKey(ev), SlotOf(ev.facts));
    var none: set<Slot> := {};
    FatedStep(s.st, mid.st, s'.st, none, none);
    assert none + none == none;
    EvolvedTrans(s.st, mid.st, s'.st);
    NoNewLinked(s.st, mid.st, s'.st);
  }

  lemma VanishItems(seen: set<EventKey>, init: seq<Event>, ev: Event, s: Sync, mid: Sync, s': Sync)
    requires VanishRun(seen, init, s, mid) && VanishStep(ev, mid, s')
    ensures ItemsFate(s.st, s'.st) && ClosedKept(s.st, mid.st)
    ensures forall k :: k in s'.st.events ==> k in s.st.events && s'.st.events[k] == s.st.events[k]
  {
    assert WellFormed(mid.st) && WellFormed(s'.st);
    hide Tracks, Framed, Fated, Local, Evolved, OpenItems, LostItems, EntryStep, ExclusionKept, CategoriesKept;
    ItemsKeyed(s'.st);
    assert s'.st.events.Keys <= mid.st.events.Keys;
    ItemsFateStep(s.st, mid.st, s'.st, EvKey(ev));
  }

  lemma ItemsKeyed(st: State)
    requires WellFormed(st)
    ensures forall rk :: rk in st.reviews ==> IdentityKey(rk.identity) in st.events
  {
  }

  lemma NoNewLinked(a: State, b: State, c: State)
    requires Evolved(b, c)
    requires forall x :: x in b.entries && x !in a.entries ==> !b.entries[x].source.Calendar?
    requires forall x :: x in c.entries && x !in b.entries ==> !c.entries[x].source.Calendar?
    ensures forall x :: x in c.entries && x !in a.entries ==> !c.entries[x].source.Calendar?
  {
    forall x | x in c.entries && x !in a.entries ensures !c.entries[x].source.Calendar? {
      if x in b.entries { assert EntryStep(b.entries[x], c.entries[x]); }
    }
  }

  lemma VanishCounts(seen: set<EventKey>, init: seq<Event>, ev: Event, s: Sync, mid: Sync, s': Sync)
    requires VanishRun(seen, init, s, mid) && VanishStep(ev, mid, s')
    requires EvKey(ev) !in GoneKeys(seen, init) && EvKey(ev) !in seen
    ensures |OpenItems(s'.st)| + |LostItems(s.st, s'.st)| + s.res.flagged == |OpenItems(s.st)| + s'.res.flagged
  {
    hide WellFormed, Tracks, Framed, Fated, Local, Evolved, ItemsFate, KeyFrame, ReviewsKept, CategoriesKept, ExclusionKept, OpenItems, DeleteEvent, LostItems;
    var k := EvKey(ev);
    FramedKey(s.st, mid.st, GoneKeys(seen, init), GoneSlots(seen, init), k);
    if s'.st == DeleteEvent(mid.st, k) && s'.res.flagged == mid.res.flagged {
      LostStep(s.st, mid.st, s'.st, k);
    } else {
      SameLostItems(s.st, mid.st, s'.st);
    }
  }

  lemma FramedKey(st: State, st': State, keys: set<EventKey>, slots: set<Slot>, k: EventKey)
    requires Framed(st, st', keys, slots) && k !in keys
    ensures KeyFrame(st, st', k)
  {
  }

  lemma SameLostItems(st: State, a: State, b: State)
    requires a.events == b.events
    ensures LostItems(st, a) == LostItems(st, b)
  {
  }

  lemma {:induction false} VanishAllStep(env: Env, seen: set<EventKey>, gone: seq<Event>, s: Sync)
    requires env.Valid() && VanishInv(s) && Distinct(gone)
    requires forall ev :: ev in gone && EvKey(ev) !in seen ==> EvKey(ev) in s.st.events && s.st.events[EvKey(ev)].facts == ev.facts
    requires VanishAll(env, seen, gone, s).Done?
    ensures VanishRun(seen, gone, s, VanishAll(env, seen, gone, s).value)
  {
    hide VanishRun, VanishStep, VanishEffect;
    if |gone| == 0 {
      VanishRunStart(seen, s);
      assert gone == [];
    } else {
      var init, ev := gone[..|gone| - 1], gone[|gone| - 1];
      assert gone == init + [ev];
      VanishAllStep(env, seen, init, s);
      var mid := VanishAll(env, seen, init, s).value;
      var s' := VanishOne(env, seen, ev, mid).value;
      if EvKey(ev) in seen {
        VanishRunSkip(seen, init, ev, s, mid);
      } else {
        assert EvKey(ev) !in GoneKeys(seen, init);
        VanishReady(seen, init, ev, s, mid);
        VanishOneStep(env, seen, ev, mid);
        VanishStepOf(seen, ev, mid, s');
        assert WellFormed(s.st);
        VanishRunStep(seen, init, ev, s, mid, s');
      }
    }
  }

  lemma VanishRunSkip(seen: set<EventKey>, init: seq<Event>, ev: Event, s: Sync, mid: Sync)
    requires VanishRun(seen, init, s, mid) && EvKey(ev) in seen
    ensures VanishRun(seen, init + [ev], s, mid)
  {
    assert GoneKeys(seen, init + [ev]) == GoneKeys(seen, init);
    assert GoneSlots(seen, init + [ev]) == GoneSlots(seen, init);
    hide VanishInv, Evolved, ExclusionKept, ItemsFate, Framed, Fated, OpenItems, LostItems;
  }

  lemma VanishReady(seen: set<EventKey>, init: seq<Event>, ev: Event, s: Sync, mid: Sync)
    requires VanishRun(seen, init, s, mid) && EvKey(ev) !in GoneKeys(seen, init)
    ensures VanishInv(mid)
    ensures KeyFrame(s.st, mid.st, EvKey(ev))
    ensures SameAt(s.st.events, mid.st.events, EvKey(ev))
  {
  }
}
