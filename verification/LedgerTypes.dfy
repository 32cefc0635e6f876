/** The tables of one pay period and the environment of a calendar sync.
    Event rows are keyed by their unique (calendar, external, instance) key and review rows by their
    unique (kind, conflict key), as the schema's UNIQUE constraints have it; the surrogate ids of both
    never dangle, because deleting an event deletes its review rows. */
module LedgerTypes {
  import opened Wrappers
  import opened Intervals
  import opened Cutting

  // ── events ──────────────────────────────────────────────────────────

  datatype Status = Accepted | Declined | Tentative | NeedsAction | NoStatus | OtherStatus(name: string)

  /** The synced fields covered by the source hash. The attendance status is not among them. */
  datatype Facts = Facts(provider: string, external: string, instance: string, recurring: string,
                         title: string, organizer: string, allDay: bool,
                         start: Option<int>, end: Option<int>, startDate: string, endDate: string,
                         rest: string)

  datatype Incoming = Incoming(calendar: int, facts: Facts, status: Status)
  datatype Event = Event(calendar: int, facts: Facts, status: Status, active: bool)

  datatype EventKey = EventKey(calendar: int, external: string, instance: string)
  datatype Identity = Identity(provider: string, calendar: int, external: string, instance: string)
  datatype Slot = Slot(provider: string, external: string, instance: string)

  function KeyOf(calendar: int, f: Facts): EventKey { EventKey(calendar, f.external, f.instance) }
  function IdentityOf(calendar: int, f: Facts): Identity { Identity(f.provider, calendar, f.external, f.instance) }
  function SlotOf(f: Facts): Slot { Slot(f.provider, f.external, f.instance) }
  function IdentityKey(i: Identity): EventKey { EventKey(i.calendar, i.external, i.instance) }
  function IdentitySlot(i: Identity): Slot { Slot(i.provider, i.external, i.instance) }
  function IncKey(inc: Incoming): EventKey { KeyOf(inc.calendar, inc.facts) }
  function IncIdentity(inc: Incoming): Identity { IdentityOf(inc.calendar, inc.facts) }

  predicate Timed(f: Facts) {
    !f.allDay && f.start.Some? && f.end.Some?
  }

  // ── overlays ────────────────────────────────────────────────────────

  datatype OverlayKind = CategoryKind | StatusKind
  datatype OverlayKey = OverlayKey(slot: Slot, kind: OverlayKind)
  datatype Note = NoNote | ExcludedNote | OtherNote(text: string)
  datatype Overlay = Overlay(category: Option<int>, note: Note)

  // ── time entries ────────────────────────────────────────────────────

  datatype Attestation = Draft | Confirmed | Dismissed
  datatype Source = NoSource | Calendar(id: Identity) | OtherSource(kind: string, ref: string)
  datatype Revision = NoRevision | Hash(facts: Facts) | DeletedRevision
  datatype Method = NoMethod | CalendarImport | CalendarConvert | GapFill
  datatype WorkType = Worked | PaidLeave | UnpaidLeave | Holiday | Break | Adjustment
  datatype Billable = Unset | Billable | NonBillable
  datatype Allocation = Allocation(workType: WorkType, project: Option<int>, billable: Billable)

  datatype TimeEntry = TimeEntry(span: Interval, minutes: int, day: int, category: Option<int>,
                                 description: string, attestation: Attestation, source: Source,
                                 revision: Revision, how: Method, allocation: Allocation)

  /** Whole minutes in the longest representable duration, 2^63 - 1 nanoseconds. */
  const MAX_MINUTES := 153722867

  /** Whole minutes of a span; the source divides a duration, which saturates, truncating toward zero. */
  function Minutes(iv: Interval): int {
    if iv.start <= iv.end then AtMost((iv.end - iv.start) / 60, MAX_MINUTES) else -AtMost((iv.start - iv.end) / 60, MAX_MINUTES)
  }

  function AtMost(n: int, limit: int): int {
    if n <= limit then n else limit
  }

  datatype Row = Row(id: nat, te: TimeEntry)

  // ── review items ────────────────────────────────────────────────────

  datatype ReviewKind = NewInGap | TitleChanged | DeletedCategorized | TentativeEvent | AllDayEvent
                      | SourceDrift | Unsupported
  datatype GapPart = GapPart(span: Interval, category: Option<int>, how: Method)
  datatype Detail = GapPrint(parts: seq<GapPart>) | Dates(start: string, end: string) | StatusIs(status: Status)
                  | Titles(from: string, to: string) | WasDeleted | WasDeclined | Drifted
  datatype ReviewKey = ReviewKey(kind: ReviewKind, identity: Identity, detail: Detail)
  datatype Payload = NoPayload | Titled(title: string) | Renamed(from: string, to: string)
                   | DriftOf(ids: seq<nat>, identity: Identity, revision: Revision, title: string)
  datatype ReviewStatus = Open | Resolved | Closed
  datatype Action = NoAction | KeepEntry | DropEntry | Accept | Dismiss | KeepGap | UseEvent | Include | Exclude
                  | SpawnDraft | Replace | OtherAction(name: string)
  datatype Review = Review(event: EventKey, payload: Payload, status: ReviewStatus, action: Action)

  // ── state and environment ───────────────────────────────────────────

  datatype State = State(events: map<EventKey, Event>, overlays: map<OverlayKey, Overlay>,
                         entries: map<nat, TimeEntry>, nextEntry: nat, reviews: map<ReviewKey, Review>)

  datatype Counts = Counts(added: nat, updated: nat, kept: nat, removed: nat, flagged: nat)

  datatype MatchKey = ByRecurring(id: string) | ByTitle(title: string, organizer: string)

  /** The listing order of time entries: by local work date, then start, ties by row id. */
  predicate Before(a: Row, b: Row) {
    a.te.day < b.te.day
    || (a.te.day == b.te.day
        && (a.te.span.start < b.te.span.start || (a.te.span.start == b.te.span.start && a.id < b.id)))
  }

  predicate InOrder(rows: seq<Row>) {
    forall i, j :: 0 <= i < j < |rows| ==> Before(rows[i], rows[j])
  }

  ghost predicate Lists(rows: seq<Row>, entries: map<nat, TimeEntry>) {
    && InOrder(rows)
    && (forall r :: r in rows ==> r.id in entries && entries[r.id] == r.te)
    && (forall id :: id in entries ==> Row(id, entries[id]) in rows)
  }

  ghost predicate ListsKeys(keys: seq<EventKey>, events: map<EventKey, Event>) {
    && (forall k :: k in keys <==> k in events)
    && (forall i, j :: 0 <= i < j < |keys| ==> keys[i] != keys[j])
  }

  /** What the code reads besides the period's own tables: the listing queries, time zone data,
      string normalization, category memory, calendar defaults and the optional AI suggestion. */
  datatype Env = Env(hasTz: bool, localDay: int -> int, zoneOf: int -> Zone,
                     listRows: map<nat, TimeEntry> -> seq<Row>, listKeys: map<EventKey, Event> -> seq<EventKey>,
                     normalize: string -> string, organizerKey: string -> string,
                     memory: map<MatchKey, int>, calendarDefault: map<int, Option<int>>,
                     suggest: Incoming -> Option<int>)
  {
    ghost predicate Valid() {
      && (forall m {:trigger listRows(m)} :: Lists(listRows(m), m))
      && (forall m {:trigger listKeys(m)} :: ListsKeys(listKeys(m), m))
      && (forall d {:trigger zoneOf(d)} :: zoneOf(d).Valid())
    }
  }
}
