/** The tables of one period as mutable state, with the statements the services issue against them. */
module Store {
  import opened Wrappers
  import opened Intervals
  import opened Cutting
  import opened LedgerTypes
  import LedgerSpec

  class Queries {
    var events: map<EventKey, Event>
    var overlays: map<OverlayKey, Overlay>
    var entries: map<nat, TimeEntry>
    var nextEntry: nat
    var reviews: map<ReviewKey, Review>

    function Tables(): State
      reads this
    {
      State(events, overlays, entries, nextEntry, reviews)
    }

    constructor (st: State)
      ensures Tables() == st
    {
      events, overlays, entries, nextEntry, reviews := st.events, st.overlays, st.entries, st.nextEntry, st.reviews;
    }

    /** A rolled-back transaction leaves the tables as they were when it began. */
    method Rollback(saved: State)
      modifies this
      ensures Tables() == saved
    {
      events, overlays, entries := saved.events, saved.overlays, saved.entries;
      nextEntry, reviews := saved.nextEntry, saved.reviews;
    }

    method UpsertEvent(inc: Incoming)
      modifies this
      ensures Tables() == LedgerSpec.UpsertEvent(old(Tables()), inc)
    {
      var k := IncKey(inc);
      var active := if k in events then events[k].active else true;
      events := events[k := Event(inc.calendar, inc.facts, inc.status, active)];
    }

    /** The foreign key of the review items cascades. */
    method DeleteEvent(k: EventKey)
      modifies this
      ensures Tables() == LedgerSpec.DeleteEvent(old(Tables()), k)
    {
      events := events - {k};
      reviews := map rk | rk in reviews && reviews[rk].event != k :: reviews[rk];
    }

    method UpsertOverlay(slot: Slot, kind: OverlayKind, o: Overlay)
      modifies this
      ensures Tables() == LedgerSpec.SetOverlay(old(Tables()), slot, kind, o)
    {
      overlays := overlays[OverlayKey(slot, kind) := o];
    }

    method DeleteOverlay(slot: Slot, kind: OverlayKind)
      modifies this
      ensures Tables() == LedgerSpec.DropOverlay(old(Tables()), slot, kind)
    {
      overlays := overlays - {OverlayKey(slot, kind)};
    }

    method CreateTimeEntry(te: TimeEntry) returns (id: nat)
      modifies this
      ensures Tables() == LedgerSpec.CreateEntry(old(Tables()), te) && id == old(nextEntry)
    {
      id := nextEntry;
      entries, nextEntry := entries[id := te], id + 1;
    }

    /** Every update statement names the row by id and reports whether it was there. */
    method UpdateTimeEntry(id: nat, te: TimeEntry) returns (found: bool)
      modifies this
      ensures found <==> id in old(entries)
      ensures Tables() == if found then old(Tables()).(entries := old(entries)[id := te]) else old(Tables())
    {
      found := id in entries;
      if found { entries := entries[id := te]; }
    }

    method UpdateAttestation(id: nat, a: Attestation) returns (found: bool)
      modifies this
      ensures found <==> id in old(entries)
      ensures Tables() == if found then old(Tables()).(entries := old(entries)[id := old(entries)[id].(attestation := a)])
                          else old(Tables())
    {
      found := id in entries;
      if found { entries := entries[id := entries[id].(attestation := a)]; }
    }

    method DeleteTimeEntry(id: nat) returns (found: bool)
      modifies this
      ensures found <==> id in old(entries)
      ensures Tables() == old(Tables()).(entries := old(entries) - {id})
    {
      found := id in entries;
      entries := entries - {id};
    }

    method PutReview(rk: ReviewKey, item: Review)
      modifies this
      ensures Tables() == old(Tables()).(reviews := old(reviews)[rk := item])
    {
      reviews := reviews[rk := item];
    }
  }
}
