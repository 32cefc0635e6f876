/** What the user's steps on time entries do: confirm, reject, adjust, split, create, delete. */
module LedgerUser {
  import opened Wrappers
  import opened Intervals
  import opened Cutting
  import opened LedgerTypes
  import opened LedgerSpec

  datatype Overnight = NoPolicy | AttributeToStart | SplitAtMidnight | OtherPolicy(name: string)
  datatype Resolution = NoResolution | AllowParallel | KeepTheirs | KeepMine | SplitAround | OtherResolution(name: string)

  /** The outcome of a step that may fail after it has already written (`keep_mine` does). */
  datatype Result = Result(st: State, ok: bool)

  function SetAttestation(st: State, id: nat, a: Attestation): State
    requires id in st.entries
  {
    st.(entries := st.entries[id := st.entries[id].(attestation := a)])
  }

  /** A confirmed or draft piece of an entry: same allocation and provenance, its own span and day. */
  function PieceOf(te: TimeEntry, zone: Zone, piece: Interval, a: Attestation): TimeEntry {
    te.(span := piece, minutes := Minutes(piece), day := zone.day(piece.start), attestation := a)
  }

  function CreatePieces(st: State, te: TimeEntry, zone: Zone, pieces: seq<Interval>, a: Attestation): State {
    if |pieces| == 0 then st
    else CreateEntry(CreatePieces(st, te, zone, pieces[..|pieces| - 1], a), PieceOf(te, zone, pieces[|pieces| - 1], a))
  }

  predicate Clashes(r: Row, id: nat, span: Interval) {
    r.id != id && r.te.attestation == Confirmed && Overlaps(span, r.te.span)
  }

  function OverlapRows(rows: seq<Row>, id: nat, span: Interval): seq<Row> {
    if |rows| == 0 then []
    else
      OverlapRows(rows[..|rows| - 1], id, span)
      + (if Clashes(rows[|rows| - 1], id, span) then [rows[|rows| - 1]] else [])
  }

  function SpansOf(rows: seq<Row>): seq<Interval> {
    seq(|rows|, i requires 0 <= i < |rows| => rows[i].te.span)
  }

  function IdsOf(rows: seq<Row>): set<nat> {
    set r | r in rows :: r.id
  }

  /** Confirming a draft whose overlaps, if any, have been dealt with. */
  ghost function ConfirmOvernight(st: State, id: nat, zone: Zone, policy: Overnight): Result
    requires id in st.entries && zone.Valid()
  {
    var te := st.entries[id];
    if !zone.CrossesMidnight(te.span.start, te.span.end) then
      if policy == NoPolicy then Result(SetAttestation(st, id, Confirmed), true) else Result(st, false)
    else if policy == AttributeToStart then Result(SetAttestation(st, id, Confirmed), true)
    else if policy == SplitAtMidnight then
      var pieces := MidnightPieces(zone, te.span.start, te.span.end);
      if |pieces| < 2 then Result(st, false)
      else
        var st1 := CreatePieces(st, te, zone, pieces, Confirmed);
        Result(st1.(entries := st1.entries[id := te.(attestation := Dismissed)]), true)
    else Result(st, false)
  }

  ghost function OnePiece(zone: Zone, rem: Interval, policy: Overnight): seq<Interval>
    requires zone.Valid()
  {
    if policy == SplitAtMidnight && zone.CrossesMidnight(rem.start, rem.end)
    then MidnightPieces(zone, rem.start, rem.end) else [rem]
  }

  ghost function RemainderPieces(zone: Zone, rems: seq<Interval>, policy: Overnight): seq<Interval>
    requires zone.Valid()
  {
    if |rems| == 0 then []
    else
      RemainderPieces(zone, rems[..|rems| - 1], policy) + OnePiece(zone, rems[|rems| - 1], policy)
  }

  /** Confirming only the parts of a draft that no confirmed entry occupies. */
  ghost function ConfirmAround(st: State, id: nat, zone: Zone, overlaps: seq<Row>, policy: Overnight): Result
    requires id in st.entries && zone.Valid()
  {
    var te := st.entries[id];
    var rems := CutAll([te.span], SpansOf(overlaps));
    if rems == [] then Result(SetAttestation(st, id, Dismissed), true)
    else if policy == NoPolicy && (exists i :: 0 <= i < |rems| && zone.CrossesMidnight(rems[i].start, rems[i].end)) then
      Result(st, false)
    else
      var st1 := CreatePieces(st, te, zone, RemainderPieces(zone, rems, policy), Confirmed);
      Result(st1.(entries := st1.entries[id := te.(attestation := Dismissed)]), true)
  }

  ghost function ConfirmEntry(env: Env, st: State, id: nat, policy: Overnight, resolution: Resolution): Result
    requires env.Valid()
  {
    if id !in st.entries || st.entries[id].attestation != Draft || !env.hasTz then Result(st, false)
    else
      var te := st.entries[id];
      var zone := env.zoneOf(te.day);
      var overlaps := OverlapRows(env.listRows(st.entries), id, te.span);
      if overlaps == [] then
        if resolution == NoResolution then ConfirmOvernight(st, id, zone, policy) else Result(st, false)
      else
        match resolution
        case AllowParallel => ConfirmOvernight(st, id, zone, policy)
        case KeepTheirs => Result(SetAttestation(st, id, Dismissed), true)
        case KeepMine =>
          var st1 := st.(entries := st.entries - IdsOf(overlaps));
          if id !in st1.entries then Result(st1, false) else ConfirmOvernight(st1, id, zone, policy)
        case SplitAround => ConfirmAround(st, id, zone, overlaps, policy)
        case _ => Result(st, false)
  }

  function RejectEntry(st: State, id: nat): Result {
    if id !in st.entries || st.entries[id].attestation != Draft then Result(st, false)
    else Result(SetAttestation(st, id, Dismissed), true)
  }

  /** The cut points must ascend strictly inside the span. */
  predicate GoodCuts(span: Interval, cuts: seq<int>) {
    forall i :: 0 <= i < |cuts| ==> GoodCut(span, cuts, i)
  }

  predicate GoodCut(span: Interval, cuts: seq<int>, i: nat)
    requires i < |cuts|
  {
    (if i == 0 then span.start else cuts[i - 1]) < cuts[i] < span.end
  }

  function CutPieces(start: int, cuts: seq<int>, end: int): seq<Interval> {
    if |cuts| == 0 then [Interval(start, end)]
    else CutPieces(start, cuts[..|cuts| - 1], cuts[|cuts| - 1]) + [Interval(cuts[|cuts| - 1], end)]
  }

  function SplitEntry(env: Env, st: State, id: nat, cuts: seq<int>): Result {
    if cuts == [] || id !in st.entries || st.entries[id].attestation != Draft || !env.hasTz then Result(st, false)
    else
      var te := st.entries[id];
      if !GoodCuts(te.span, cuts) then Result(st, false)
      else
        var st1 := CreatePieces(st, te, env.zoneOf(te.day), CutPieces(te.span.start, cuts, te.span.end), Draft);
        Result(st1.(entries := st1.entries[id := te.(attestation := Dismissed)]), true)
  }

  /** A user edit: span, day, category, text and allocation, never attestation or provenance. */
  datatype Edit = Edit(span: Interval, day: int, category: Option<int>, description: string, allocation: Allocation)

  function Edited(te: TimeEntry, e: Edit): TimeEntry {
    te.(span := e.span, minutes := Minutes(e.span), day := e.day, category := e.category, description := e.description,
        allocation := e.allocation)
  }

  function UpdateEntry(st: State, id: nat, e: Edit): Result {
    if id !in st.entries then Result(st, false)
    else Result(st.(entries := st.entries[id := Edited(st.entries[id], e)]), true)
  }

  function AdjustDraft(st: State, id: nat, e: Edit): Result {
    if id !in st.entries || st.entries[id].attestation != Draft then Result(st, false) else UpdateEntry(st, id, e)
  }

  function CreateManual(st: State, e: Edit, gap: bool): Result {
    Result(CreateEntry(st, TimeEntry(e.span, Minutes(e.span), e.day, e.category, e.description, Confirmed, NoSource,
                                     NoRevision, if gap then GapFill else NoMethod, e.allocation)), true)
  }

  function RemoveEntry(st: State, id: nat): Result {
    if id !in st.entries then Result(st, false) else Result(st.(entries := st.entries - {id}), true)
  }

  /** A draft for an all-day event, whose interval the user picks. */
  function ConvertAllDay(env: Env, st: State, k: EventKey, e: Edit): Result {
    if k !in st.events then Result(st, false)
    else
      var ev := st.events[k];
      var id := IdentityOf(ev.calendar, ev.facts);
      var rows := env.listRows(st.entries);
      if !ev.facts.allDay || !ev.active || Excluded(st, SlotOf(ev.facts))
         || LinkedAs(rows, id, Confirmed) || LinkedAs(rows, id, Draft) then Result(st, false)
      else
        var category := if e.category.Some? then e.category else EffectiveCategory(st, SlotOf(ev.facts));
        var text := if e.description == "" then ev.facts.title else e.description;
        Result(CreateEntry(st, TimeEntry(e.span, Minutes(e.span), e.day, category, text, Draft, Calendar(id),
                                         Hash(ev.facts), CalendarConvert, e.allocation)), true)
  }
}
