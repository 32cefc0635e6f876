/** What the counts of a sync mean: `added`, `updated` and `kept` sort the pulled events by what was stored
    of them, and `removed` counts the deleted events and the replayed drops. */
module LedgerCounts {
  import opened Wrappers
  import opened LedgerTypes
  import opened LedgerSpec
  import opened LedgerSteps
  import opened LedgerDrafts
  import opened LedgerSync
  import opened LedgerRuns
  import opened LedgerTheorems
  import opened LedgerIdempotence
  import opened LedgerFlags
  import opened LedgerOutcome
  import opened LedgerForgone
  import opened LedgerSharing

  // ── pulled events ───────────────────────────────────────────────────

  function NewKeys(base: map<EventKey, Event>, pull: seq<Incoming>): set<EventKey> {
    set inc | inc in pull && IncKey(inc) !in base :: IncKey(inc)
  }

  function ChangedKeys(base: map<EventKey, Event>, pull: seq<Incoming>): set<EventKey> {
    set inc | inc in pull && IncKey(inc) in base && base[IncKey(inc)].facts != inc.facts :: IncKey(inc)
  }

  function SameKeys(base: map<EventKey, Event>, pull: seq<Incoming>): set<EventKey> {
    set inc | inc in pull && IncKey(inc) in base && base[IncKey(inc)].facts == inc.facts :: IncKey(inc)
  }

  lemma KeysPush(base: map<EventKey, Event>, init: seq<Incoming>, inc: Incoming)
    ensures NewKeys(base, init + [inc]) == NewKeys(base, init) + NewKeys(base, [inc])
    ensures ChangedKeys(base, init + [inc]) == ChangedKeys(base, init) + ChangedKeys(base, [inc])
    ensures SameKeys(base, init + [inc]) == SameKeys(base, init) + SameKeys(base, [inc])
    ensures NewKeys(base, init) <= Keys(init) && ChangedKeys(base, init) <= Keys(init) && SameKeys(base, init) <= Keys(init)
  {
  }

  lemma KeysOne(base: map<EventKey, Event>, inc: Incoming)
    ensures NewKeys(base, [inc]) == if IncKey(inc) !in base then {IncKey(inc)} else {}
    ensures ChangedKeys(base, [inc]) == if IncKey(inc) in base && base[IncKey(inc)].facts != inc.facts then {IncKey(inc)} else {}
    ensures SameKeys(base, [inc]) == if IncKey(inc) in base && base[IncKey(inc)].facts == inc.facts then {IncKey(inc)} else {}
  {
    assert [inc][0] == inc;
    assert forall x :: x in [inc] <==> x == inc;
  }

  lemma AddOutside(a: set<EventKey>, b: set<EventKey>, keys: set<EventKey>, k: EventKey)
    requires a <= keys && k !in keys && (b == {k} || b == {})
    ensures |a + b| == |a| + |b|
  {
  }

  /** A pulled event is counted under the one set its key belongs to. */
  lemma PullOneCounts(env: Env, base: map<EventKey, Event>, inc: Incoming, s: Sync)
    requires PullOne(env, base, inc, s).Done?
    ensures var res := PullOne(env, base, inc, s).value.res;
            && res.added == s.res.added + |NewKeys(base, [inc])|
            && res.updated == s.res.updated + |ChangedKeys(base, [inc])|
            && res.kept == s.res.kept + |SameKeys(base, [inc])|
            && res.removed == s.res.removed
  {
    KeysOne(base, inc);
    hide HandleNew, HandleChanged, Materialize, UpsertEvent, NewKeys, ChangedKeys, SameKeys, TitleMaterial, IncludeDropped;
  }

  lemma CountsPush(base: map<EventKey, Event>, init: seq<Incoming>, inc: Incoming)
    requires IncKey(inc) !in Keys(init)
    ensures |NewKeys(base, init + [inc])| == |NewKeys(base, init)| + |NewKeys(base, [inc])|
    ensures |ChangedKeys(base, init + [inc])| == |ChangedKeys(base, init)| + |ChangedKeys(base, [inc])|
    ensures |SameKeys(base, init + [inc])| == |SameKeys(base, init)| + |SameKeys(base, [inc])|
  {
    KeysPush(base, init, inc);
    KeysOne(base, inc);
    hide NewKeys, ChangedKeys, SameKeys, Keys;
    AddOutside(NewKeys(base, init), NewKeys(base, [inc]), Keys(init), IncKey(inc));
    AddOutside(ChangedKeys(base, init), ChangedKeys(base, [inc]), Keys(init), IncKey(inc));
    AddOutside(SameKeys(base, init), SameKeys(base, [inc]), Keys(init), IncKey(inc));
  }

  /** Every pulled event is counted once, under `added`, `updated` or `kept`. */
  lemma {:induction false} PullCounts(env: Env, base: map<EventKey, Event>, pull: seq<Incoming>, s: Sync)
    requires DistinctKeys(pull) && PullAll(env, base, pull, s).Done?
    ensures var res := PullAll(env, base, pull, s).value.res;
            && res.added == s.res.added + |NewKeys(base, pull)|
            && res.updated == s.res.updated + |ChangedKeys(base, pull)|
            && res.kept == s.res.kept + |SameKeys(base, pull)|
            && res.removed == s.res.removed
  {
    hide DistinctKeys, PullOne, NewKeys, ChangedKeys, SameKeys;
    if |pull| == 0 {
      NoKeys(base, pull);
    } else {
      var init, inc := pull[..|pull| - 1], pull[|pull| - 1];
      assert pull == init + [inc];
      PrefixKeys(init, inc, pull);
      PullCounts(env, base, init, s);
      LastKey(init, inc);
      PullOneCounts(env, base, inc, PullAll(env, base, init, s).value);
      CountsPush(base, init, inc);
    }
  }

  lemma NoKeys(base: map<EventKey, Event>, pull: seq<Incoming>)
    requires pull == []
    ensures NewKeys(base, pull) == {} && ChangedKeys(base, pull) == {} && SameKeys(base, pull) == {}
  {
  }

  // ── vanished events ─────────────────────────────────────────────────

  /** The listed event is unseen, its slot is live, its recorded decision is to drop the entry, and no event
      listed before it in that slot has a recorded decision. */
  ghost predicate DropsAt(st: State, seen: set<EventKey>, gone: seq<Event>, j: nat)
    requires j < |gone|
  {
    var ev := gone[j];
    && EvKey(ev) !in seen && Live(st, SlotOf(ev.facts)) && Answer(st, ev, DropEntry)
    && !Settles(st, seen, gone[..j], SlotOf(ev.facts))
  }

  ghost function Drops(st: State, seen: set<EventKey>, gone: seq<Event>): set<nat> {
    set j: nat | j < |gone| && DropsAt(st, seen, gone, j)
  }

  lemma DropsPush(st: State, seen: set<EventKey>, init: seq<Event>, ev: Event)
    ensures var now := DropsAt(st, seen, init + [ev], |init|);
            |Drops(st, seen, init + [ev])| == |Drops(st, seen, init)| + if now then 1 else 0
  {
    hide DropsAt;
    var gone := init + [ev];
    forall j: nat | j < |init| ensures DropsAt(st, seen, gone, j) <==> DropsAt(st, seen, init, j) {
      DropsBefore(st, seen, init, ev, j);
    }
    var before := Drops(st, seen, init);
    if DropsAt(st, seen, gone, |init|) {
      assert Drops(st, seen, gone) == before + {|init|};
    } else {
      assert Drops(st, seen, gone) == before;
    }
  }

  lemma DropsBefore(st: State, seen: set<EventKey>, init: seq<Event>, ev: Event, j: nat)
    requires j < |init|
    ensures DropsAt(st, seen, init + [ev], j) <==> DropsAt(st, seen, init, j)
  {
    hide Live, Answer, Settles;
    assert (init + [ev])[..j] == init[..j] && (init + [ev])[j] == init[j];
  }

  ghost function DeletedBetween(st: State, st': State): set<EventKey> {
    st.events.Keys - st'.events.Keys
  }

  /** What one vanished event adds to `removed`: one if it is deleted, one if its drop is replayed. */
  lemma RemovedOne(env: Env, seen: set<EventKey>, ev: Event, s: Sync)
    requires env.Valid() && VanishInv(s) && VanishOne(env, seen, ev, s).Done?
    requires EvKey(ev) !in seen ==> EvKey(ev) in s.st.events && s.st.events[EvKey(ev)].facts == ev.facts
    ensures var s' := VanishOne(env, seen, ev, s).value;
            && s'.res == s.res.(flagged := s'.res.flagged, removed := s'.res.removed)
            && (s'.st.events == s.st.events || (s'.st.events == s.st.events - {EvKey(ev)} && EvKey(ev) in s.st.events))
            && s'.res.removed == s.res.removed
                 + (if s'.st.events == s.st.events then 0 else 1)
                 + (if EvKey(ev) !in seen && Live(s.st, SlotOf(ev.facts)) && Answer(s.st, ev, DropEntry) then 1 else 0)
  {
    hide WellFormed, Tracks, DeletedPayload, OnVanishedCategorized, EnqueueDrift, LinkedAs, VanishEffect, Answer;
    var s' := VanishOne(env, seen, ev, s).value;
    VanishOneStep(env, seen, ev, s);
    DeletedOne(seen, ev, s, s');
    ConfirmedIdsExist(s.rows, IdentityOf(ev.calendar, ev.facts));
    if EvKey(ev) !in seen && Live(s.st, SlotOf(ev.facts)) { DroppedCount(env, s.st, ev); }
  }

  lemma DroppedCount(env: Env, st: State, ev: Event)
    requires WellFormed(st) && EvKey(ev) in st.events && st.events[EvKey(ev)].facts == ev.facts
    requires OnVanishedCategorized(env, st, ev).Done?
    ensures OnVanishedCategorized(env, st, ev).value.2 == if Answer(st, ev, DropEntry) then 1 else 0
  {
    hide WellFormed, Apply, EnqueueOrReplay;
    EnqueueReplays(st, DeletedKey(ev), EvKey(ev), Titled(ev.facts.title));
  }

  lemma {:induction false} VanishRemoves(env: Env, seen: set<EventKey>, gone: seq<Event>, s: Sync)
    requires env.Valid() && VanishInv(s) && Distinct(gone) && VanishAll(env, seen, gone, s).Done?
    requires forall ev :: ev in gone && EvKey(ev) !in seen ==> EvKey(ev) in s.st.events && s.st.events[EvKey(ev)].facts == ev.facts
    ensures var s' := VanishAll(env, seen, gone, s).value;
            && (forall slot :: Live(s'.st, slot) <==> Live(s.st, slot) && !Settles(s.st, seen, gone, slot))
            && s'.res == s.res.(flagged := s'.res.flagged, removed := s'.res.removed)
            && s'.st.events.Keys <= s.st.events.Keys
            && s'.res.removed == s.res.removed + |DeletedBetween(s.st, s'.st)| + |Drops(s.st, seen, gone)|
  {
    hide VanishRun, VanishInv, VanishOne, Distinct, Live, Settles, DropsAt, Answer, GoneKeys, DeletedBetween;
    if |gone| == 0 {
      NothingSettles(s.st, seen, gone);
      NoneDeleted(s.st);
      assert Drops(s.st, seen, gone) == {};
    } else {
      var init, ev := gone[..|gone| - 1], gone[|gone| - 1];
      assert gone == init + [ev];
      InitDistinct(seen, init, ev);
      VanishRemoves(env, seen, init, s);
      VanishAllStep(env, seen, init, s);
      var mid := VanishAll(env, seen, init, s).value;
      StillStored(seen, init, ev, s, mid);
      LastLive(env, seen, init, ev, s, mid);
      RemovedOne(env, seen, ev, mid);
      LastDropped(seen, init, ev, s, mid);
      DropsPush(s.st, seen, init, ev);
      DeletedMore(s.st, mid.st, VanishOne(env, seen, ev, mid).value.st, EvKey(ev));
    }
  }

  lemma NoneDeleted(st: State)
    ensures DeletedBetween(st, st) == {}
  {
  }

  lemma DeletedMore(a: State, b: State, c: State, k: EventKey)
    requires b.events.Keys <= a.events.Keys
    requires c.events == b.events || (c.events == b.events - {k} && k in b.events)
    ensures c.events.Keys <= a.events.Keys
    ensures |DeletedBetween(a, c)| == |DeletedBetween(a, b)| + if c.events == b.events then 0 else 1
  {
    if c.events != b.events {
      var keys := b.events.Keys;
      assert c.events.Keys == keys - {k};
      OneLess(a.events.Keys, keys, k);
    }
  }

  lemma OneLess(all: set<EventKey>, left: set<EventKey>, k: EventKey)
    requires left <= all && k in left
    ensures |all - (left - {k})| == |all - left| + 1
  {
    assert all - (left - {k}) == (all - left) + {k};
  }

  lemma LastLive(env: Env, seen: set<EventKey>, init: seq<Event>, ev: Event, s: Sync, mid: Sync)
    requires env.Valid() && VanishRun(seen, init, s, mid) && VanishOne(env, seen, ev, mid).Done?
    requires EvKey(ev) !in seen ==> EvKey(ev) in mid.st.events && mid.st.events[EvKey(ev)].facts == ev.facts
    requires EvKey(ev) !in seen ==> EvKey(ev) !in GoneKeys(seen, init)
    requires forall slot :: Live(mid.st, slot) <==> Live(s.st, slot) && !Settles(s.st, seen, init, slot)
    ensures VanishInv(mid)
    ensures forall slot :: Live(VanishOne(env, seen, ev, mid).value.st, slot) <==> Live(s.st, slot) && !Settles(s.st, seen, init + [ev], slot)
  {
    assert VanishInv(mid);
    hide VanishRun, VanishInv, VanishOne, Settles, KeyFrame, GoneKeys, Answer, Excluded, Categorized;
    var slot := SlotOf(ev.facts);
    if EvKey(ev) !in seen {
      VanishReady(seen, init, ev, s, mid);
      SameAnswers(s.st, mid.st, ev);
    }
    VanishSlot(env, seen, ev, mid);
    var st' := VanishOne(env, seen, ev, mid).value.st;
    if st'.overlays == mid.st.overlays { SameLive(mid.st, st'); }
    forall other ensures Live(st', other) <==> Live(s.st, other) && !Settles(s.st, seen, init + [ev], other) {
      SettlesPush(s.st, seen, init, ev, other);
      assert other != slot || st'.overlays == mid.st.overlays ==> Alike(mid.st, st', other);
    }
  }

  lemma LastDropped(seen: set<EventKey>, init: seq<Event>, ev: Event, s: Sync, mid: Sync)
    requires VanishRun(seen, init, s, mid)
    requires EvKey(ev) !in seen ==> EvKey(ev) !in GoneKeys(seen, init)
    requires forall slot :: Live(mid.st, slot) <==> Live(s.st, slot) && !Settles(s.st, seen, init, slot)
    ensures DropsAt(s.st, seen, init + [ev], |init|)
       <==> EvKey(ev) !in seen && Live(mid.st, SlotOf(ev.facts)) && Answer(mid.st, ev, DropEntry)
  {
    hide VanishRun, Live, Settles, GoneKeys, Answer, KeyFrame;
    assert (init + [ev])[..|init|] == init && (init + [ev])[|init|] == ev;
    if EvKey(ev) !in seen {
      VanishReady(seen, init, ev, s, mid);
      SameAnswers(s.st, mid.st, ev);
    }
  }

  // ── the whole sync ──────────────────────────────────────────────────

  /** The listed event is not pulled, it was decided to drop its entry, its slot is live when the pull is done,
      and no event listed before it in that slot has a recorded decision. */
  ghost predicate DropReplayedAt(env: Env, st: State, pull: seq<Incoming>, gone: seq<Event>, j: nat)
    requires j < |gone|
  {
    var ev := gone[j];
    && EvKey(ev) !in Keys(pull) && Answer(st, ev, DropEntry)
    && LiveAfter(env, st, pull, SlotOf(ev.facts))
    && !Settles(st, Keys(pull), gone[..j], SlotOf(ev.facts))
  }

  ghost function ReplayedDrops(env: Env, st: State, pull: seq<Incoming>): set<nat>
    requires env.Valid()
  {
    var gone := BaseEvents(env, st.events);
    set j: nat | j < |gone| && DropReplayedAt(env, st, pull, gone, j)
  }

  lemma DropsAtStart(env: Env, st: State, pull: seq<Incoming>, s1: Sync, gone: seq<Event>, j: nat)
    requires env.Valid() && WellFormed(st) && DistinctKeys(pull) && j < |gone|
    requires PullAll(env, st.events, pull, Start(env, st)) == Done(s1) && PullsEffect(st.events, pull, Start(env, st), s1)
    ensures DropsAt(s1.st, Keys(pull), gone, j) <==> DropReplayedAt(env, st, pull, gone, j)
  {
    hide WellFormed, DistinctKeys, PullAll, PullsEffect, Live, LiveAfter, Settles, Answer, Keys;
    var ev := gone[j];
    LiveAfterPull(env, st, pull, s1, SlotOf(ev.facts));
    SettlesAtStart(env, st, pull, s1, gone[..j], SlotOf(ev.facts));
    if EvKey(ev) !in Keys(pull) { AnswersAtStart(env, st, pull, s1, ev); }
  }

  lemma DeletedFromStart(env: Env, st: State, pull: seq<Incoming>, s1: Sync, s2: Sync)
    requires env.Valid() && PullInv(st.events, s1) && PullsEffect(st.events, pull, Start(env, st), s1)
    requires VanishRun(Keys(pull), BaseEvents(env, st.events), s1, s2)
    ensures DeletedBetween(s1.st, s2.st) == DeletedBetween(st, s2.st)
  {
    assert st.events.Keys <= s1.st.events.Keys;
    hide PullInv, VanishRun, Evolved, ReviewsKept, ExclusionKept, Fated, OpenItems, BaseEvents;
    forall k | k in s1.st.events && k !in s2.st.events ensures k in st.events {
      if k in Keys(pull) { PulledNotLost(env, st, pull, s1, s2, k); } else { assert KeyFrame(st, s1.st, k); }
    }
  }

  /** The counts of a sync, for every ledger and every pull that names no event twice: `added` is the number of
      pulled events that were not stored, `updated` of those stored with other facts, `kept` of those stored with
      the same facts, and `removed` is the number of deleted events and of replayed drops together. */
  lemma SyncCounts(env: Env, st: State, pull: seq<Incoming>)
    requires env.Valid() && WellFormed(st) && DistinctKeys(pull) && SyncEvents(env, st, pull).Done?
    ensures var (st', res) := SyncEvents(env, st, pull).value;
            && res.added == |Keys(pull) - st.events.Keys|
            && res.updated == |ChangedKeys(st.events, pull)|
            && res.kept == |SameKeys(st.events, pull)|
            && res.removed == |st.events.Keys - st'.events.Keys| + |ReplayedDrops(env, st, pull)|
  {
    hide WellFormed, DistinctKeys, SyncEvents, PullInv, PullsEffect, VanishRun, VanishInv, Proposals, PullAll, VanishAll, BaseEvents, Distinct, DropsAt, DropReplayedAt, Live, Settles, Answer, SameKeys, ChangedKeys;
    var s1, s2 := SyncRuns(env, st, pull);
    var gone := BaseEvents(env, st.events);
    PullCounts(env, st.events, pull, Start(env, st));
    assert NewKeys(st.events, pull) == Keys(pull) - st.events.Keys;
    BaseListed(env, st);
    StoredForVanish(env, st, pull, s1);
    VanishRemoves(env, Keys(pull), gone, s1);
    DeletedFromStart(env, st, pull, s1, s2);
    forall j: nat | j < |gone| ensures DropsAt(s1.st, Keys(pull), gone, j) <==> DropReplayedAt(env, st, pull, gone, j) {
      DropsAtStart(env, st, pull, s1, gone, j);
    }
    assert Drops(s1.st, Keys(pull), gone) == ReplayedDrops(env, st, pull);
  }
}
