/** Making room for an event: what `use_event` does to every entry it meets, over the whole listing. */
module LedgerShrink {
  import opened Wrappers
  import opened Intervals
  import opened Cutting
  import opened LedgerTypes
  import opened LedgerSpec
  import opened LedgerSteps

  /** Which original row each row descends from. */
  type Origin = map<nat, nat>

  /** A piece keeps attestation, category, text, provenance and day; only its span and minutes differ. */
  predicate PieceLike(whole: TimeEntry, piece: TimeEntry) {
    piece == whole || piece == whole.(span := piece.span, minutes := Minutes(piece.span))
  }

  ghost predicate Descends(st0: State, st: State, origin: Origin) {
    && st == st0.(entries := st.entries, nextEntry := st.nextEntry) && st0.nextEntry <= st.nextEntry
    && origin.Keys == st.entries.Keys
    && (forall y :: y in st.entries ==> y < st.nextEntry) && (forall x :: x in st0.entries ==> x < st0.nextEntry)
    && (forall y :: y in st.entries ==> origin[y] in st0.entries && PieceLike(st0.entries[origin[y]], st.entries[y]))
    && (forall y :: y in st.entries ==> if y in st0.entries then origin[y] == y else st0.nextEntry <= y)
  }

  /** Row `y` is a piece of row `x` and covers the instant. */
  predicate Owns(st: State, origin: Origin, x: nat, y: nat, t: int) {
    y in st.entries && y in origin && origin[y] == x && Covers(st.entries[y].span, t)
  }

  /** Some piece of row `x` covers the instant. */
  ghost predicate Left(st: State, origin: Origin, x: nat, t: int) {
    exists y :: Owns(st, origin, x, y, t)
  }

  /** Row `x` has been cut: its pieces are disjoint and cover exactly its span minus the event. */
  ghost predicate Trimmed(st0: State, st: State, origin: Origin, event: Interval, x: nat)
    requires x in st0.entries
  {
    && (forall t :: Left(st, origin, x, t) <==> Covers(st0.entries[x].span, t) && !Covers(event, t))
    && (forall y, z, t :: Owns(st, origin, x, y, t) && Owns(st, origin, x, z, t) ==> y == z)
  }

  /** Row `x` is still whole. */
  ghost predicate Whole(st0: State, st: State, origin: Origin, x: nat)
    requires x in st0.entries
  {
    && x in st.entries && st.entries[x] == st0.entries[x]
    && (forall y :: y in origin && origin[y] == x ==> y == x)
  }

  ghost predicate ShrinkInv(st0: State, st: State, done: set<nat>, event: Interval, origin: Origin) {
    && Descends(st0, st, origin)
    && (forall x :: x in st0.entries && x in done ==> Trimmed(st0, st, origin, event, x))
    && (forall x :: x in st0.entries && x !in done ==> Whole(st0, st, origin, x))
  }

  /** The origins after one row has been shrunk. */
  ghost function Grown(st: State, origin: Origin, r: Row, event: Interval): Origin {
    var a := SplitAround(r.te.span, event);
    if a.overlap.None? then origin
    else if a.before.None? && a.after.None? then origin - {r.id}
    else if a.before.Some? && a.after.Some? then origin[st.nextEntry := r.id]
    else origin
  }

  lemma OthersUntouched(st0: State, st: State, st': State, event: Interval, origin: Origin, origin': Origin, id: nat, x: nat)
    requires Descends(st0, st, origin) && x in st0.entries && x != id
    requires forall y :: y in origin' && origin'[y] == x ==> y in origin && origin[y] == x && y != id
    requires forall y :: y in origin && origin[y] == x && y in st.entries ==> y in origin' && origin'[y] == x
    requires forall y :: y in st.entries && y != id ==> y in st'.entries && st'.entries[y] == st.entries[y]
    ensures Trimmed(st0, st, origin, event, x) ==> Trimmed(st0, st', origin', event, x)
    ensures Whole(st0, st, origin, x) ==> Whole(st0, st', origin', x)
  {
    if Trimmed(st0, st, origin, event, x) {
      forall t ensures Left(st', origin', x, t) <==> Left(st, origin, x, t) {
        if Left(st, origin, x, t) {
          var y :| Owns(st, origin, x, y, t);
          assert Owns(st', origin', x, y, t);
        }
        if Left(st', origin', x, t) {
          var y :| Owns(st', origin', x, y, t);
          assert Owns(st, origin, x, y, t);
        }
      }
      forall y, z, t | Owns(st', origin', x, y, t) && Owns(st', origin', x, z, t) ensures y == z {
        assert Owns(st, origin, x, y, t) && Owns(st, origin, x, z, t);
      }
    }
  }

  lemma DescendsPut(st0: State, st: State, origin: Origin, id: nat, span: Interval)
    requires Descends(st0, st, origin) && id in st0.entries && Whole(st0, st, origin, id)
    ensures Descends(st0, st.(entries := st.entries[id := WithSpan(st.entries[id], span)]), origin)
  {
  }

  lemma DescendsDrop(st0: State, st: State, origin: Origin, id: nat)
    requires Descends(st0, st, origin)
    ensures Descends(st0, st.(entries := st.entries - {id}), origin - {id})
  {
  }

  lemma DescendsAdd(st0: State, st: State, origin: Origin, id: nat, te: TimeEntry)
    requires Descends(st0, st, origin) && id in st0.entries && PieceLike(st0.entries[id], te)
    ensures Descends(st0, CreateEntry(st, te), origin[st.nextEntry := id])
  {
    assert st.nextEntry !in st0.entries;
  }

  lemma ShrinkOneDescends(st0: State, st: State, r: Row, event: Interval, origin: Origin)
    requires Descends(st0, st, origin) && event.start <= event.end
    requires r.id in st0.entries && st0.entries[r.id] == r.te && Whole(st0, st, origin, r.id)
    ensures ShrinkOne(st, r, event).Done?
    ensures Descends(st0, ShrinkOne(st, r, event).value, Grown(st, origin, r, event))
  {
    var a := SplitAround(r.te.span, event);
    hide Descends, SplitAround, CreateEntry;
    if a.overlap.Some? {
      if a.before.Some? {
        DescendsPut(st0, st, origin, r.id, a.before.value);
        var st1 := st.(entries := st.entries[r.id := WithSpan(st.entries[r.id], a.before.value)]);
        if a.after.Some? { DescendsAdd(st0, st1, origin, r.id, WithSpan(r.te, a.after.value)); }
      } else if a.after.Some? {
        DescendsPut(st0, st, origin, r.id, a.after.value);
      } else {
        DescendsDrop(st0, st, origin, r.id);
      }
    }
  }

  lemma ShrinkOneTrims(st0: State, st: State, r: Row, event: Interval, origin: Origin)
    requires Descends(st0, st, origin) && event.start <= event.end
    requires r.id in st0.entries && st0.entries[r.id] == r.te && Whole(st0, st, origin, r.id)
    requires ShrinkOne(st, r, event).Done?
    ensures Trimmed(st0, ShrinkOne(st, r, event).value, Grown(st, origin, r, event), event, r.id)
  {
    hide Minutes, WellFormed;
    var st' := ShrinkOne(st, r, event).value;
    var origin' := Grown(st, origin, r, event);
    var a := SplitAround(r.te.span, event);
    var (id, n) := (r.id, st.nextEntry);
    assert id < n && n !in st.entries;
    forall y | y in origin' && origin'[y] == id ensures y == id || y == n { }
    hide Descends;
    forall t ensures Left(st', origin', id, t) <==> Covers(r.te.span, t) && !Covers(event, t) {
      SplitAroundPartitions(r.te.span, event, t);
      hide SplitAround;
      if Left(st', origin', id, t) {
        var y :| Owns(st', origin', id, y, t);
      }
      if Covers(r.te.span, t) && !Covers(event, t) {
        assert Owns(st', origin', id, id, t) || Owns(st', origin', id, n, t);
      }
    }
    forall y, z, t | Owns(st', origin', id, y, t) && Owns(st', origin', id, z, t) ensures y == z {
      SplitAroundPartitions(r.te.span, event, t);
    }
  }

  lemma ShrinkOneStep(st0: State, st: State, done: set<nat>, r: Row, event: Interval, origin: Origin)
    requires ShrinkInv(st0, st, done, event, origin) && event.start <= event.end
    requires r.id in st0.entries && st0.entries[r.id] == r.te && r.id !in done
    ensures ShrinkOne(st, r, event).Done?
    ensures ShrinkInv(st0, ShrinkOne(st, r, event).value, done + {r.id}, event, Grown(st, origin, r, event))
  {
    ShrinkOneDescends(st0, st, r, event, origin);
    ShrinkOneTrims(st0, st, r, event, origin);
    var st' := ShrinkOne(st, r, event).value;
    var origin' := Grown(st, origin, r, event);
    forall x | x in st0.entries && x != r.id
      ensures x in done ==> Trimmed(st0, st', origin', event, x)
      ensures x !in done ==> Whole(st0, st', origin', x)
    {
      OriginsOf(st0, st, r, event, origin, x);
      hide ShrinkOne, Grown, Descends, Trimmed, Whole;
      OthersUntouched(st0, st, st', event, origin, origin', r.id, x);
    }
  }

  lemma OriginsOf(st0: State, st: State, r: Row, event: Interval, origin: Origin, x: nat)
    requires Descends(st0, st, origin) && r.id in st0.entries && Whole(st0, st, origin, r.id) && x in st0.entries && x != r.id
    requires ShrinkOne(st, r, event).Done?
    ensures var (st', origin') := (ShrinkOne(st, r, event).value, Grown(st, origin, r, event));
            && (forall y :: y in origin' && origin'[y] == x ==> y in origin && origin[y] == x && y != r.id)
            && (forall y :: y in origin && origin[y] == x && y in st.entries ==> y in origin' && origin'[y] == x)
            && (forall y :: y in st.entries && y != r.id ==> y in st'.entries && st'.entries[y] == st.entries[y])
  {
    hide Cutting.SplitAround, WithSpan, PieceLike, Descends, Whole;
    FreshOrigin(st0, st, r, origin);
    RowsElsewhere(st, r, event);
  }

  lemma FreshOrigin(st0: State, st: State, r: Row, origin: Origin)
    requires Descends(st0, st, origin) && r.id in st0.entries && Whole(st0, st, origin, r.id)
    ensures st.nextEntry !in st.entries && st.nextEntry !in origin && r.id in origin && origin[r.id] == r.id
  {
  }

  lemma RowsElsewhere(st: State, r: Row, event: Interval)
    requires ShrinkOne(st, r, event).Done? && st.nextEntry !in st.entries
    ensures forall y :: y in st.entries && y != r.id ==>
              y in ShrinkOne(st, r, event).value.entries && ShrinkOne(st, r, event).value.entries[y] == st.entries[y]
  {
    hide Cutting.SplitAround, WithSpan;
  }

  function RowIds(rows: seq<Row>): set<nat> {
    set r | r in rows :: r.id
  }

  lemma {:induction false} ShrinkAllStep(st: State, rows: seq<Row>, event: Interval) returns (origin: Origin)
    requires WellFormed(st) && event.start <= event.end
    requires forall r :: r in rows ==> r.id in st.entries && st.entries[r.id] == r.te
    requires forall i, j :: 0 <= i < j < |rows| ==> rows[i].id != rows[j].id
    ensures ShrinkAll(st, rows, event).Done?
    ensures ShrinkInv(st, ShrinkAll(st, rows, event).value, RowIds(rows), event, origin)
  {
    if |rows| == 0 {
      origin := map x | x in st.entries :: x;
    } else {
      var init, last := rows[..|rows| - 1], rows[|rows| - 1];
      assert rows == init + [last];
      origin := ShrinkAllStep(st, init, event);
      var mid := ShrinkAll(st, init, event).value;
      assert last.id !in RowIds(init) && last in rows;
      ShrinkOneStep(st, mid, RowIds(init), last, event, origin);
      origin := Grown(mid, origin, last, event);
      assert RowIds(rows) == RowIds(init) + {last.id};
    }
  }

  /** Using an event never fails on the rows; afterwards no row meets it, and the surviving pieces of
      each old row are disjoint, cover exactly its span minus the event, and agree with it in everything
      but span and minutes. */
  lemma UseEventTrims(env: Env, st: State, event: Interval) returns (origin: Origin)
    requires env.Valid() && WellFormed(st) && event.start <= event.end
    ensures ShrinkAll(st, env.listRows(st.entries), event).Done?
    ensures var st' := ShrinkAll(st, env.listRows(st.entries), event).value;
            && Descends(st, st', origin)
            && (forall x :: x in st.entries ==> Trimmed(st, st', origin, event, x))
            && (forall y, t :: y in st'.entries && Covers(st'.entries[y].span, t) ==> !Covers(event, t))
  {
    var rows := env.listRows(st.entries);
    assert Lists(rows, st.entries);
    origin := ShrinkAllStep(st, rows, event);
    var st' := ShrinkAll(st, rows, event).value;
    forall x | x in st.entries ensures x in RowIds(rows) {
      assert Row(x, st.entries[x]) in rows;
      assert Row(x, st.entries[x]).id in RowIds(rows);
    }
    forall y, t | y in st'.entries && Covers(st'.entries[y].span, t) ensures !Covers(event, t) {
      assert Trimmed(st, st', origin, event, origin[y]);
      assert Owns(st', origin, origin[y], y, t) && Left(st', origin, origin[y], t);
    }
  }
}
