# A verified model of the time ledger

This project models the parts of the application that decide what happens to a user's time: the calendar
re-sync over the ledger of one pay period, the decisions a user takes on proposed time entries, the interval
arithmetic behind gaps and splits, pay periods and work schedules on the calendar grid, the export with its
delimited tables, and the OAuth broker's single-use records and rate limiter. `dafny verify dfyconfig.toml`
checks everything.

How it is organized:

- `Intervals`, `Cutting`: half-open spans with their point-set meaning and measure; the loops of the source
  as methods, and what they mean as lemmas.
- `LedgerTypes`, `LedgerSpec`, `LedgerUser`: the tables of a period (events, overlays, time entries, review
  items) and every operation on them as a function from state to state.
- `Store`, `ReviewPolicy`, `SyncService`, `EntryService`: the same operations in the source's form, loops and
  statements over a mutable `Queries` object, each proved to compute its function.
- `LedgerSteps`, `LedgerDrafts`, `LedgerSync`, `LedgerRuns`: the ledger invariant and the locality of each
  part of a sync. The results are in `LedgerTheorems`, `LedgerIdempotence`, `LedgerMirror`,
  `LedgerCategories`, `LedgerFlags`, `LedgerItems`, `LedgerConflicts`, `LedgerOutcome`, `LedgerSharing`, `LedgerCounts` and
  `LedgerStored` (a whole sync),
  `LedgerForgone` (recorded decisions over every run), `LedgerExamples` and `LedgerScenarios` (concrete ledgers
  and runs, and an environment that meets every assumption),
  `LedgerConfirm`, `LedgerDecisions`, `LedgerPieces`, `LedgerShrink`, `LedgerAnswers`, `LedgerEdits` (user decisions and
  edits), `LedgerGaps` (what decisions do to gaps), and `LedgerHistory`, `LedgerRows` and `LedgerLasting` (every run of
  syncs and user steps).
- `Gaps`, `Periods`, `WorkSchedules`, `RateLimit`, `Broker`, `BrokerService`, `Protocol`, `Export`,
  `Delimited`, `Tabular`: one module per component.

Conventions. Instants are integer seconds and dates are day numbers. What the code reads besides its tables
(listing order, time zones, string normalization, category memory, calendar defaults, suggestions) is a value
`Env` whose stated validity is that listings list exactly the table and that in every zone the next local
midnight is strictly later, changes the local day, and days do not run backwards. An operation that returns
an error inside a transaction yields `Failed` and leaves the tables alone.

Where the code and its own prose differ, the model follows the code:

- `splitAround` says every reported portion is non-empty; the overlap is empty when a gap ends where the event
  starts (`SplitAroundParts`, `SplitAroundTouching`).
- A sync does not raise the number of open review items by exactly `Flagged`: deleting an event deletes its
  review items, because the foreign key cascades (internal/db/migrations/00025_source_drift_review_kind.sql:14)
  and foreign keys are on (internal/db/db.go:25). `SyncConservesOpenItems` gives the balance,
  `FlaggedCountsIff` the ledgers and pulls for which the plain count is right, `OpenItemLost` one for which
  it is not.
- For the same reason a decision recorded for an event never meets that event as new again, so the replay of
  `keep_gap`, `use_event` and `exclude` in `OnNewEvent` is unreachable in every well-formed ledger
  (`NewEventsReplayNothing`).
- Recorded decisions to drop or keep the entry of a declined or deleted event are looked up by every later sync,
  yet in a run from the empty ledger none is ever replayed, and with a time zone no sync fails, as long as no
  pull shares an overlay slot between events or changes the provider of a stored event (`RunReplaysNothing`):
  such a decision clears the category without which it is not looked up. When two calendars do share a slot,
  runs from the empty ledger replay them (`DropIsReplayed`, `DeclineIsReplayed`) and can make a sync fail
  (`KeepReplayFails`). `SyncFailsIff` says exactly when a sync fails, shared slots included, and
  `SyncFailsOnlyOnKeep` that it is always the recorded keep of a vanished event without times.
- `keep_mine` deletes overlapping rows outside a transaction, before the overnight policy can refuse
  (`RefusedConfirm`, `KeepMineLosesRow`, `RefusalLosesRow`).
- A declined and retitled event with only a live draft still gets its `title_changed` item, although the
  comment beside the branch says that only that item is suppressed (internal/service/sync.go:240-251).
  `RetitledIsFlagged` says exactly when the item is opened, `DeclinedStillRetitled` is an instance.
- The day difference to the anchor saturates at 106751 days (internal/service/period.go:143), after which
  fixed-length periods follow today instead of the grid and can overlap (`FixedDayPartitions`,
  `SharedExactly`, `FarPeriodsOverlap`). The minutes of a span saturate likewise
  (internal/service/time_entry.go:214, `FlooredSum`, `SaturatedSplitGains`).
- The overnight test treats a span that ends exactly at a midnight as overnight, although nothing is then left
  to split (`CrossesIffMidnightReached`, `SplitIffMidnightInside`).
- `OverlapSplit` accepts an unknown overnight policy and treats it as attribute-to-start
  (`ConfirmAcceptedIff`).

## Model

| member | source | states |
|---|---|---|
| LedgerIdempotence.SyncIsIdempotent | internal/service/sync.go:65-188 | repeating a sync on the same pull changes no event, overlay, entry or review item and counts every pulled event as unchanged, provided no event is reported twice and no two events share an overlay slot |
| LedgerCounts.SyncCounts | internal/service/sync.go:65-188 | of a pull that names no event twice, `added` counts the pulled events that were not stored, `updated` those stored with other facts, `kept` those stored with the same facts, and `removed` the deleted events and the replayed drops together |
| LedgerCounts.RemovedOne | internal/service/sync.go:137-182 | one vanished event adds one to `removed` when it is deleted and one when its drop is replayed, and touches no other count but `flagged` |
| LedgerIdempotence.DeletedExactly | internal/service/sync.go:136-182 | where no two events share an overlay slot, a stored event survives a sync exactly when it was pulled, is excluded, is categorized, or has a confirmed entry linked to it |
| LedgerSharing.DeletedIff | internal/service/sync.go:136-182 | events may share slots: a stored event survives exactly when it was pulled, its slot is excluded, has a category or is given one by a new event of the pull, or a confirmed entry is linked to it |
| LedgerIdempotence.ExcludedHasNoDraft | internal/service/sync_materialize.go:24-34 | an excluded timed event that is still pulled ends every sync without a live linked draft |
| LedgerLasting.ExcludedStaysQuiet | internal/service/sync_materialize.go:24-34 | events may share slots: an event that is excluded before a sync that pulls it ends it excluded and without a live draft |
| LedgerMirror.DraftsMirrorThePull | internal/service/sync_materialize.go:15-203 | after a sync every live draft of a pulled timed event shows the event as pulled, with the overlay's category or else the draft's own; or it is untouched, at the pulled revision already or awaiting an answer |
| LedgerMirror.IncludedIsProposed | internal/service/sync_materialize.go:24-76 | after a sync a pulled timed event that is neither excluded nor awaiting an answer has a live linked row, or dismissed ones at the pulled revision |
| LedgerMirror.ChangeRevives | internal/service/sync_materialize.go:36-76 | a dismissed proposal comes back when the normalized title of its event changes or the user falls out of the answers that included it, unless the event is excluded or awaits an answer |
| LedgerCategories.NewEventCategory | internal/service/sync.go:193-315 | after a sync a new event has the remembered category, else the one its slot had, else the calendar's default, else the suggestion |
| LedgerFlags.NewConflictsAreFlagged | internal/service/review_policy.go:157-218 | a new event that overlaps an entry, is all-day or is unanswered ends the sync with an open item, whatever was decided before |
| LedgerItems.NewItemsExactly | internal/service/review_policy.go:157-218 | after a sync the items about a new event are exactly the one it asks for, open and titled, or none: the filled gap it meets, else that it lasts all day with its dates, else that it is unanswered with its status |
| LedgerItems.GapPartsAre | internal/service/review_policy.go:892-925 | the key of a gap item holds span, category and method of exactly the overlapped rows, in listing order |
| LedgerFlags.DriftIsFlagged | internal/service/review_policy.go:260-306 | a changed event with confirmed rows at another revision ends the sync with its drift item open, naming exactly those rows, which stay as they were |
| LedgerItems.ChangedItemsExactly | internal/service/review_policy.go:260-306 | after a sync the drift item of a changed event is open with the lagging confirmed rows in listing order, the pulled revision and title, or is as it was when none lags; of its other items only the title and the declined item may differ |
| LedgerFlags.VanishedIsFlagged | internal/service/sync.go:137-182 | a stored event that a sync neither saw nor deleted is excluded or has its deletion put to the user |
| LedgerItems.VanishedItemsExactly | internal/service/sync.go:136-182 | after a sync the items about a stored event neither pulled nor deleted are as they were, but for the deletion item of a live slot and, where the slot is bare, the drift item that names the confirmed rows and the deleted revision |
| LedgerConflicts.RetitledIsFlagged | internal/service/sync.go:214-260 | after a sync the title item of a changed event is there exactly when it was before, or the event is categorized, its normalized title changed, and it is not the case that it has live drafts, no confirmed row and was not declined; a new item is open |
| LedgerConflicts.DeclinedIsFlagged | internal/service/review_policy.go:237-255 | after a sync the declined item of a changed event is there exactly when it was before or the event is categorized and declined; a recorded drop is replayed and excludes the event |
| LedgerOutcome.FlaggedCountsExactly | internal/service/sync.go:136-182 | where no two events share an overlay slot, open items rise by exactly `Flagged` if and only if every open item belongs to an event that was pulled, or that is excluded, categorized or has a confirmed entry |
| LedgerSharing.FlaggedCountsIff | internal/service/sync.go:136-182 | the same where events may share slots, a category that a new event of the pull brings to the slot counting as well |
| LedgerSharing.SyncFailsIff | internal/service/sync.go:136-182 | with a time zone and no event named twice, a sync fails exactly when an event without times vanishes whose entry it was decided to keep, its slot is not excluded and no decline replayed by this pull excludes it, the slot has a category or gets one from a new event of the pull, and no event listed before it in that slot has a recorded drop or keep; events may share slots |
| LedgerSharing.SyncFailsOnlyOnKeep | internal/service/review_policy.go:597-638 | in particular a failing sync leaves out a stored event without times whose entry it was decided to keep |
| LedgerSharing.OwnSlot | internal/service/sync.go:193-260 | a pulled event changes its slot only by bringing a category when new, or by a replayed drop, which excludes the slot |
| LedgerSharing.VanishSlots | internal/service/sync.go:136-182 | after the vanish loop a slot still has a category and no exclusion exactly when it had both before and no vanished event in it has a recorded drop or keep |
| LedgerOutcome.SyncFailsExactly | internal/service/review_policy.go:597-638 | where no two events share an overlay slot, a sync with a time zone fails exactly when the pull leaves out an event without times that is categorized, not excluded, and whose entry it was decided to keep |
| LedgerOutcome.NewEventsReplayNothing | internal/service/review_policy.go:157-218 | wherever a sync handles an event that is new to the ledger, only review items change, nothing is replayed and automatic categories are not skipped |
| LedgerExamples.OpenItemLost | internal/service/sync.go:168-181 | an unanswered event vanishes: nothing is flagged, and its open item is gone |
| LedgerExamples.DeclinedStillRetitled | internal/service/sync.go:240-251 | a categorized event with a live draft alone, declined under another title, gets its title item |
| LedgerForgone.RunReplaysNothing | internal/service/review_policy.go:63-93 | in every run from the empty ledger whose pulls share no overlay slot and keep the provider of stored events, no sync with a time zone fails, and no sync writes an exclusion, clears a category or keeps an entry: no recorded drop or keep is replayed |
| LedgerForgone.RunForgone | internal/service/review_policy.go:566-595 | in every such run each item names its event's overlay slot, and where it was decided to drop or keep an entry no category is left |
| LedgerForgone.StepForgone | internal/service/review_policy.go:566-595 | every sync over such a pull and every user step keeps this |
| LedgerForgone.SyncReplaysNothing | internal/service/sync.go:65-188 | a sync over such a pull changes overlays only as categories of new events, adds rows only as linked proposals, and with a time zone does not fail |
| LedgerForgone.ChangedEventsReplayNothing | internal/service/sync.go:214-260 | wherever such a sync handles a changed event, only review items change |
| LedgerForgone.OnlyItemsVanished | internal/service/sync.go:137-182 | wherever it handles a vanished event, only review items change or the event goes with its items |
| LedgerScenarios.DropIsReplayed | internal/service/review_policy.go:129-152 | a run from the empty ledger, two calendars sharing a slot, that replays the recorded drop of a deleted event |
| LedgerScenarios.DeclineIsReplayed | internal/service/review_policy.go:237-255 | a run from the empty ledger, two calendars sharing a slot, that replays the recorded drop of a declined event |
| LedgerScenarios.KeepReplayFails | internal/service/review_policy.go:597-638 | a run from the empty ledger, two calendars sharing a slot, after which a sync fails |
| LedgerScenarios.RefusalLosesRow | internal/service/time_entry_confirm.go:79-113 | a run from the empty ledger in which a refused confirmation loses a confirmed row, in any environment with a midnight inside the event |
| LedgerScenarios.RefusalLosesRowSomewhere | internal/service/time_entry_confirm.go:79-113 | the same in a given environment whose days begin half an hour into the event |
| LedgerStored.PulledIsStored | internal/service/sync.go:89-133 | after a sync a pulled event is stored with the pulled facts; its status is the pulled one exactly when the event was new, its facts changed, or the statuses agreed before |
| LedgerStored.StatusAloneIsUnseen | internal/service/sync.go:386-395 | a status that changes alone leaves the stored row and every review item of the event as they were |
| LedgerTheorems.SyncKeepsRows | internal/service/sync.go:65-188 | a sync loses no row, leaves every confirmed row wholly unchanged, keeps provenance, and otherwise only refreshes or dismisses drafts and bumps dismissed revisions |
| LedgerTheorems.NoSecondDraft | internal/service/sync_materialize.go:36-76 | a sync creates a linked row only for a pulled timed event with no live row, at most one per identity, and revives an all-dismissed proposal only on a title change or a drop out of the included statuses |
| LedgerTheorems.SyncConservesOpenItems | internal/service/sync.go:65-188 | open items after plus open items of deleted events equal open items before plus `Flagged` |
| LedgerTheorems.SyncKeepsItems | internal/service/review_policy.go:63-93 | review items go only with their event, no open item is closed, no closed one rewritten, and only source drift reopens |
| LedgerTheorems.SyncKeepsOverlays | internal/service/sync.go:194-292 | exclusions are never lifted, and a category overlay survives unless its event is new in the pull or a recorded drop or keep decision is replayed, which clears it and excludes the slot |
| LedgerSteps.EnqueueStep | internal/service/review_policy.go:63-93 | at most one item per kind and conflict key: a known key opens nothing and yields its recorded decision, a new one opens exactly one item |
| LedgerSteps.DriftStep | internal/service/review_policy.go:353-406 | the one drift item of an identity ends open with the new payload, counted as opened exactly when it was not open |
| LedgerSteps.OnNewEventNeverReplays | internal/service/review_policy.go:157-218 | when every item of the event was opened by this sync, handling it opens at most one item, replays nothing and does not skip automatic categories |
| LedgerSteps.DropEntryStep | internal/service/review_policy.go:584-591 | dropping a deleted event cannot fail, soft-rejects all its drafts, clears its category, excludes it and touches no other event |
| LedgerSteps.KeepEntryStep | internal/service/review_policy.go:576-583 | keeping it does the same and adds no linked row |
| LedgerSteps.HandleChangedStep | internal/service/sync.go:214-260 | handling a changed event never fails, is confined to that event, and either excludes it or leaves entries and overlays alone |
| LedgerDrafts.MaterializeStep | internal/service/sync_materialize.go:15-76 | materializing changes only rows linked to the event, keeps the listing truthful, and the only row it may add is a justified proposal |
| LedgerDrafts.MaterializeSettles | internal/service/sync_materialize.go:15-76 | over an exact listing one materialization settles the event: live drafts up to date, or dismissed ones, or none at all when excluded |
| LedgerDrafts.SettledIsStable | internal/service/sync_materialize.go:15-76 | on a settled event materializing again without a material change does nothing |
| LedgerSync.PullOneStep | internal/service/sync.go:89-133 | one pulled event keeps the sync invariant, stays local to its key and slot, and balances the flagged counter with the open items |
| LedgerSync.VanishOneStep | internal/service/sync.go:137-182 | one stored event that was not pulled is either retained, with its frame and balance, or deleted with its items |
| LedgerHistory.EveryStep | internal/service/time_entry_confirm.go:37-119 | every sync and user step keeps the ledger well-formed, moves attestations only away from draft, lets only a sync reopen (source drift) or remove items, and changes confirmed rows only where that step is entitled to |
| LedgerHistory.RunKeepsRows | internal/db/sqlc/time_entry.sql.go:351-361 | over any stretch of any run from the empty ledger a row present at both ends was there throughout, with fixed provenance and at most one attestation move, from draft |
| LedgerRows.RunTimekept | internal/service/time_entry.go:213-215 | in every run from the empty ledger the minutes of each row are the whole minutes of its span, whatever is pulled, decided, confirmed, split or edited |
| LedgerLasting.StepKeepsExclusion | internal/service/review_policy.go:699-727 | an excluded slot stays excluded through every step, except exactly one that answers the open all-day item of an all-day event of the slot |
| LedgerLasting.RunKeepsExclusion | internal/service/review_policy.go:670-727 | in every run from the empty ledger an exclusion lasts until such an answer |
| LedgerLasting.ExcludedForGood | internal/service/sync_materialize.go:24-34 | until then every sync that pulls an event of the slot leaves it without a live draft |
| LedgerConfirm.ConfirmAddsNoOverlap | internal/service/time_entry_confirm.go:62-119 | other than in parallel by request, confirming never makes two confirmed rows overlap that did not before, on the error paths too |
| LedgerConfirm.ConfirmCovers | internal/service/time_entry_confirm.go:217-306 | a successful confirmation occupies exactly the wanted instants: the draft, nothing under keep-theirs, and under split the draft minus the union of all other confirmed rows |
| LedgerConfirm.OverlapsListed | internal/service/time_entry_confirm.go:191-214 | the reported overlaps are exactly the other confirmed rows that overlap |
| LedgerDecisions.ConfirmAcceptedIff | internal/service/time_entry_confirm.go:37-119 | a confirmation is accepted exactly when the draft, resolution and overnight policy fit, stated over rows and local midnights alone |
| LedgerDecisions.ConfirmKeepsRest | internal/service/time_entry_confirm.go:37-189 | a confirmation touches only the draft, the rows created from it and, under keep-mine, the overlapping rows; what the created rows hold is in `LedgerPieces.ConfirmOutcome` |
| LedgerPieces.ConfirmOutcome | internal/service/time_entry_confirm.go:62-306 | what every accepted confirmation leaves: the draft confirmed in place; or dismissed for rows that run through its span day by day and lose at most one minute at each midnight; or for rows that begin and end only at its ends, at overlaps and, under the split policy, at midnights; or dismissed alone. Each new row counts its own minutes, has the work date of its start and is otherwise like the draft |
| LedgerDecisions.RefusedConfirm | internal/service/time_entry_confirm.go:79-113 | a refused confirmation changes the ledger exactly when keep-mine met an overlap, and then it has removed exactly the overlapping rows |
| LedgerDecisions.KeepMineLosesRow | internal/service/time_entry_confirm.go:79-113 | a concrete refused confirmation that loses a confirmed row |
| LedgerDecisions.SplitConserves | internal/service/time_entry_confirm.go:447-538 | accepted exactly for ascending inner cuts of a draft; the segments tile its span; what their rows hold is in `LedgerPieces.SplitRows` |
| LedgerPieces.SplitRows | internal/service/time_entry_confirm.go:447-538 | the draft is dismissed for one draft per segment between the cuts, each with its own minutes, the work date of its start and otherwise the draft's fields; the rows together lose at most one minute at each cut, none when all segments are whole, and gain none below saturation |
| LedgerDecisions.FlooredSum | internal/service/time_entry.go:213-215 | flooring n tiles loses at most n - 1 minutes, and gains none unless the minutes of the whole saturate |
| LedgerDecisions.SaturatedSplitGains | internal/service/time_entry.go:213-215 | for every longer span some split gains a minute |
| LedgerShrink.UseEventTrims | internal/service/review_policy.go:774-831 | using an event never fails over a fresh listing; afterwards no row meets it, and the pieces of each old row are disjoint, cover exactly its span minus the event and keep its attestation, category and provenance |
| LedgerAnswers.ReviewAnswered | internal/service/review.go:23-61 | resolving is accepted exactly for an open item and an answer its kind takes; the item records answer and status, overlays and rows change as the answer has it (excluded after keep-gap, exclude, keep and drop; never after an answer about an all-day event), and no event, other item or other slot changes |
| LedgerAnswers.ExclusionAchieved | internal/service/exclude_event.go:24-81 | excluding a stored event succeeds: its slot is excluded and uncategorized, its live drafts are dismissed, its open items closed as excluded, and every other row, item, slot and event is as before |
| LedgerAnswers.DeletedAnswered | internal/service/review_policy.go:566-638 | dropping a deleted event is always accepted, keeping it exactly when it has times and a zone is known; the kept copy has the event's times, title and former category and no source |
| LedgerAnswers.SpawnsDraft | internal/service/review_policy.go:486-564 | accepted exactly for a timed event with a zone; the draft has the event's times, the item's identity and revision, category and allocation of the first confirmed listed row, and its text unless that is empty or to be replaced |
| LedgerAnswers.FirstConfirmedIs | internal/service/review_policy.go:486-564 | the model row is the first listed one that exists and is confirmed |
| LedgerEdits.Rejected | internal/service/time_entry_confirm.go:385-414 | rejecting is accepted exactly for a draft and dismisses it |
| LedgerEdits.Updated | internal/service/time_entry.go:93-133 | accepted for every stored row, adjusting for every draft; the edited fields are the edit's, minutes follow the span, attestation and provenance stay, and no other row changes |
| LedgerEdits.UpdateUndone | internal/service/time_entry.go:93-133 | an update is undone by one that names the former values |
| LedgerEdits.Created | internal/service/time_entry.go:49-91 | a manual entry is a confirmed row without a source on a fresh id, and deleting it restores the rows |
| LedgerEdits.Removed | internal/service/time_entry.go:136-160 | deletes exactly the stored row named |
| LedgerEdits.Converted | internal/service/all_day_convert.go:22-115 | an all-day event is converted exactly while it is visible, included and without a live row; the draft has the picked interval and the user's category and text or else the event's |
| LedgerEdits.Shown | internal/service/calendar_sync.go:126-151 | deselecting a calendar hides its events and changes nothing else, and selecting it restores them |
| LedgerGaps.UseEventKeepsOccupied | internal/service/review_policy.go:651-664 | using a visible event in place of the entries it meets neither opens nor closes a gap |
| LedgerGaps.KeepEntryKeepsTime | internal/service/review_policy.go:597-638 | keeping the entry of a deleted event leaves its whole time occupied, although the event itself is hidden |
| LedgerGaps.ConfirmKeepsFills | internal/service/gaps.go:73-75 | confirming without deleting moves no filled time: dismissed originals still count and pieces stay inside them |
| Cutting.SubtractInterval | internal/service/time_entry_confirm.go:308-323 | the loop computes the cutting function about which the next two rows speak |
| Cutting.CutAllCovers | internal/service/time_entry_confirm.go:228-238 | cutting any spans by any cuts leaves exactly the instants no cut covers |
| Cutting.CutAllDisjoint | internal/service/time_entry_confirm.go:228-238 | the pieces left by forward cuts are non-empty, disjoint, in order and inside the original |
| Cutting.SplitAroundPartitions | internal/service/review_policy.go:846-872 | the three portions partition the gap, and the outer two miss the event |
| Cutting.SplitAroundParts | internal/service/review_policy.go:844-872 | the outer portions are never empty, and exactly when the overlap portion is |
| Cutting.SplitAroundTouching | internal/service/review_policy.go:850-868 | a gap that ends where the event starts has an empty overlap portion |
| Cutting.SplitAtLocalMidnights | internal/service/time_entry_confirm.go:360-376 | the loop terminates and computes the midnight pieces |
| Cutting.MidnightPiecesTile | internal/service/time_entry_confirm.go:360-376 | the pieces tile the span, each inside one local day and starting at a midnight |
| Cutting.SplitIffMidnightInside | internal/service/time_entry_confirm.go:140-143 | at least two pieces result exactly when a local midnight lies strictly inside |
| Cutting.CrossesIffMidnightReached | internal/service/time_entry_confirm.go:349-353 | the overnight test holds exactly when a local midnight lies inside or at the end |
| Intervals.OverlapsShare | internal/service/time_entry_confirm.go:191-214 | spans overlap exactly when they share an instant |
| Intervals.Clip | internal/service/gaps.go:200-213 | the clipped span covers exactly the common instants and is missing when there are none |
| Intervals.ClipAll | internal/service/gaps.go:215-223 | the clipped spans are non-empty and cover exactly what was covered inside the window |
| Intervals.Union | internal/service/gaps.go:226-243 | sorts its argument in place and returns separated spans over exactly the same instants |
| Intervals.NormalFormUnique | internal/service/gaps.go:226-243 | separated non-empty spans are determined by what they cover, so union depends on nothing else |
| Intervals.Subtract | internal/service/gaps.go:246-264 | disjoint spans inside the window covering exactly its unoccupied instants |
| Intervals.MeasureIsCount | internal/service/gaps.go:266-272 | the total length of disjoint spans is the number of instants they cover |
| Intervals.MeasureSplits | internal/service/gaps.go:266-272 | lengths are conserved when disjoint spans are partitioned |
| Gaps.WorkingWindows | internal/service/gaps.go:130-165 | fails only without a usable zone; otherwise covers exactly the proper working windows in separated form |
| Gaps.ComputeDay | internal/service/gaps.go:84-120 | events, fills and gaps of a day cover exactly the working instants that are respectively an event's, an entry's and nobody's; covered plus gap time is the working time |
| Gaps.ComputeGaps | internal/service/gaps.go:40-124 | one such partition per expected day, over the listed events and the entries of every attestation |
| Periods.RangePartitions | internal/service/period.go:120-151 | for every cadence the range contains today; each of its dates maps back to it, by the calendar always and for fixed lengths between the last grid points; its shape is in `RangeShape` |
| Periods.RangeShape | internal/service/period.go:120-151 | a semi-monthly range runs from day 1 to 15 or from 16 to the last day of its month, a monthly one from the first to the last day, a weekly one has 7 days and any other 14 |
| Periods.CalendarIs | internal/service/period.go:153-159 | the first of every month in closed form: a year has 366 days exactly when divisible by 4 but not by 100, or by 400 |
| Periods.FixedDayPartitions | internal/service/period.go:138-151 | every date of a fixed-length range maps back to it exactly when today lies from 106750 days before the anchor up to, not including, 106750 days after it |
| Periods.FixedDayGrid | internal/service/period.go:138-151 | the range contains today; its start lies on the grid through the anchor until the day difference saturates, and beyond follows today by a fixed number of days |
| Periods.MonthUnique | internal/service/period.go:153-159 | every date lies in exactly one calendar month |
| Periods.PeriodTable.EnsureCurrentPeriod | internal/service/period.go:15-74 | returns a listed period that contains today and changes no period, or creates exactly the current range of the listed cadence and anchor; the period has a timezone segment; errors change nothing |
| Periods.PeriodTable.EnsureSegment | internal/service/period.go:76-92 | adds a segment only where there was none |
| Periods.RunPeriodsDisjoint | internal/service/period.go:15-74 | in every run from the empty table all periods share cadence and anchor, and no two share a date from 106751 days before the anchor to 106750 after it, or, by the calendar, any date |
| Periods.RunPeriodsShaped | internal/service/period.go:15-74 | in every run every period has the shape of its cadence |
| Periods.SharedExactly | internal/service/period.go:138-151 | some run creates two periods that share a date exactly when it lies outside those days and the cadence has a fixed length |
| Periods.FarPeriodsOverlap | internal/service/period.go:138-151 | a run of three calls, such as 2026-01-01, 2400-01-01 and 2400-01-14, that creates overlapping bi-weekly periods |
| Periods.EnsureIsIdempotent | internal/service/period.go:33-40 | after a creation a call for any date of the new period changes nothing, whatever the settings |
| Periods.RunFailsOnlyOnBadSetting | internal/db/migrations/00001_init.sql:25 | creation fails only on an empty table with a cadence the table rejects |
| WorkSchedules.ValidateWindows | internal/service/work_schedule.go:365-378 | accepts exactly lists of proper windows within the day |
| WorkSchedules.ValidateScheduleDays | internal/service/work_schedule.go:340-363 | accepts exactly seven rows with distinct valid weekdays, non-negative minutes and proper windows |
| WorkSchedules.EveryWeekdayOnce | internal/service/work_schedule.go:340-363 | an accepted template has exactly one row for each weekday |
| WorkSchedules.StoredDays | internal/service/work_schedule.go:340-363 | what is stored of an accepted template has one row per weekday, with the length and windows given for it |
| WorkSchedules.ScheduleTable.ReplaceActiveWorkSchedule | internal/service/work_schedule.go:99-164 | accepted exactly when the input is valid and nothing that must be closed starts on or after the new start; otherwise the table is unchanged |
| WorkSchedules.ScheduleTable.CloseReaching | internal/service/work_schedule.go:128-141 | closes exactly the versions that reach past the new start, or rolls back |
| WorkSchedules.ScheduleTable.GetWorkScheduleForDate | internal/db/sqlc/work_schedule.sql.go:206-211 | returns a row that governs the date if there is one |
| WorkSchedules.RefusedExactly | internal/service/work_schedule.go:128-141 | in a run a change is refused exactly when it starts no later than the last version, and closes only that one otherwise |
| WorkSchedules.ExactlyOneGoverns | internal/seed/seed.go:91-106 | in every run from the seed each date from 1970 on has exactly one governing version and earlier dates none |
| WorkSchedules.PastIsKept | internal/service/work_schedule.go:122-164 | a change keeps what governs every date before it, governs every date from its start on, and when refused changes nothing |
| WorkSchedules.RunNeverOverlaps | internal/db/migrations/00021_add_work_schedule.sql:54-78 | the overlap triggers never fire |
| RateLimit.Limiter.Allow | internal/broker/ratelimit/limiter.go:40-61 | one call is one step of the lazily evicting limiter |
| RateLimit.Limiter.EvictExpired | internal/broker/ratelimit/limiter.go:63-69 | removes exactly the expired buckets |
| RateLimit.EvictionUnobservable | internal/broker/ratelimit/limiter.go:40-69 | with a monotone clock every request gets the answer of a limiter that never evicts |
| RateLimit.AdmissionBound | internal/broker/ratelimit/limiter.go:40-61 | any interval one window long admits at most twice the limit less one |
| RateLimit.BoundIsReached | internal/broker/ratelimit/limiter.go:40-61 | that bound is attained for every limit and every window of more than one instant |
| RateLimit.RefusedExactly | internal/broker/ratelimit/limiter.go:55-57 | a request is refused exactly when the window running at its time already holds `limit` admissions of its key |
| RateLimit.UnlimitedPasses | internal/broker/ratelimit/limiter.go:41-43 | a request without a limit is always admitted and not counted |
| Broker.SQLiteStore.SaveOAuthState | internal/broker/store/store.go:104-122 | inserts an unused row in a normalized provider, or nothing when the id exists |
| Broker.SQLiteStore.ConsumeOAuthState | internal/broker/store/store.go:124-162 | checks used, provider and expiry in that order; success marks the row used, failure changes nothing |
| Broker.SQLiteStore.SaveHandoff | internal/broker/store/store.go:164-181 | inserts an unused row, or nothing when the code hash exists |
| Broker.SQLiteStore.ConsumeHandoff | internal/broker/store/store.go:186-233 | checks used, expiry, provider and bindings in that order; success marks the row used and scrubs the payload, failure changes nothing |
| Broker.NormalizedOnce | internal/broker/store/store.go:316-322 | normalizing a provider name twice changes nothing more |
| Broker.BlankMeansGoogle | internal/broker/store/store.go:316-322 | a blank provider name means Google, any other is meant without the space around it |
| Broker.TrimsAround | internal/broker/store/store.go:316-322 | trimming takes away exactly the leading and trailing space |
| BrokerService.StartAuthorization | internal/broker/httpapi/operations.go:43-133 | refused for the first reason in order, and otherwise stores the state fixed by the request and the fresh random strings; nothing is stored on a refusal but of the link; the limiter is asked only about configured providers |
| BrokerService.OAuthCallback | internal/broker/httpapi/server.go:267-413 | refused for the first reason in order; success consumes the state and mints one handoff bound to it; a refusal before consumption leaves the store, one after it a consumed state, and a failed link also the handoff; the limiter is asked once |
| BrokerService.ExchangeHandoff | internal/broker/httpapi/operations.go:135-223 | refused for the first reason in order; success consumes the handoff and returns its tokens and scopes; every refusal but of the payload leaves the store; a failed consumption is counted against the code, and with a version twice |
| BrokerService.SurfacesApart | internal/broker/ratelimit/limiter.go:71-74 | requests to different surfaces never share a bucket |
| BrokerService.AdmittedPerMinute | internal/broker/httpapi/server.go:34-37 | in any minute one address starts at most 19 authorizations, completes at most 59 redirects and tries at most 39 exchanges, and at most 9 failures of a code are answered |
| Protocol.SingleUse | internal/broker/store/store.go:124-233 | over every interleaving one start leads to at most one consumed state, one handoff and one successful exchange |
| Protocol.ExchangeIsBound | internal/broker/httpapi/operations.go:165-196 | a successful exchange has the provider, session, state id and S256 challenge fixed at start, neither record had expired when it was used, and its tokens are exactly those sealed for that state |
| Protocol.UsedMeansScrubbed | internal/broker/store/store.go:213-217 | a handoff holds its payload exactly until it is used |
| Protocol.FailureChangesNothing | internal/broker/store/store.go:183-185 | a step writes exactly the record of its success or leaves every record as it was, and a request that has read a record succeeds exactly when nobody used it in the meantime |
| Protocol.UninterruptedExchange | internal/broker/store/store.go:186-233 | read and update with nothing between them are the one-transaction operation |
| Protocol.UninterruptedCallback | internal/broker/store/store.go:124-162 | the same for consuming a state |
| Protocol.AuthorizedIff | internal/broker/httpapi/server.go:267-413 | started in any world, a flow mints its handoff exactly when the redirect names the provider of the start and comes in time; the handoff holds the bindings of the start, the tokens and the scopes |
| Protocol.FlowSucceedsIff | internal/broker/httpapi/operations.go:135-223 | a whole flow hands out its tokens exactly when redirect and exchange name the provider of the start and come in time and the exchange proves session, state and verifier of the start |
| Export.MinutesConserved | internal/service/export.go:211-262 | the actual total is the sum over confirmed entries and over category totals; daily totals and category rows add up to it less exactly the entries whose day lies outside the period |
| Export.BuildPeriodExport | internal/service/export.go:153-262 | fails exactly for a reversed period; for every category and day at once the totals are exactly those of the confirmed rows' entries, one line per category identity as its first entry shows it, in name order, and the targets those expected of the dates |
| Export.SortedCategoryMinutes | internal/service/export.go:468-477 | the totals of the map, each once, in name order |
| Export.ToEntry | internal/service/export.go:354-414 | minutes are end minus start, at least one block, on the entry's work date; every field is stated in `EntryFields` |
| Export.EntryFields | internal/service/export.go:354-414 | an entry starts at the local minute of the row's start and ends at that of its end, at midnight when that is on another date, and at least one block later; its other fields are the row's, with category and project looked up |
| Export.TotalsAreOfRows | internal/service/export.go:187-262 | each total, for all, a category, a day or both, is the sum of what the confirmed rows count for |
| Export.PlainCounts | internal/service/export.go:389-405 | under a clock that follows local time a whole-minute row on one date, a block or longer, counts the minutes of its span |
| Export.ActualIsRowMinutes | internal/service/export.go:187-262 | over such rows the actual total is the sum of the minutes of the confirmed rows |
| Export.FirstCategoryIs | internal/service/export.go:458-466 | a line shows the category as the first entry of its identity has it |
| Export.ExpectedListed | internal/service/export.go:208-216 | the target of a date is what is listed for it |
| Export.OnlyConfirmedCount | internal/service/export.go:182-196 | every confirmed row becomes an entry and no other row does |
| Export.PeriodDateRange | internal/service/export.go:432-449 | fails exactly for a reversed period, else every date in order |
| Delimited.EscapeDelimitedCell | internal/service/export_tabular.go:352-360 | computes the escaped cell read back below |
| Delimited.QuotedExactly | internal/service/export_tabular.go:352-360 | a cell is printed as it is exactly when it holds no delimiter, quote or row end |
| Delimited.JoinDelimited | internal/service/export_tabular.go:344-350 | computes the printed row read back below |
| Delimited.ReadTableBack | internal/service/export_tabular.go:344-360 | a reader with the quoting of section 2 of RFC 4180 recovers every cell of any non-empty table, for comma or tab |
| Delimited.PrintedOnce | internal/service/export_tabular.go:344-360 | different tables never print the same |
| Tabular.RenderMatrix | internal/service/export_tabular.go:362-413 | prints exactly the matrix table |
| Tabular.RenderFlatRollup | internal/service/export_tabular.go:429-448 | prints exactly the flat rollup table |
| Tabular.RenderDetail | internal/service/export_tabular.go:474-505 | prints exactly the detail table of the sorted entries |
| Tabular.DetailSorted | internal/service/export_tabular.go:483-494 | the detail rows are a permutation of the entries in day, start and row order |
| Tabular.DetailPrintsRow | internal/service/export_tabular.go:507-543 | each cell of a detail row from the row of the ledger: work date, local start, the end its counted minutes later, category, texts and allocation |
| Tabular.FlatPrintsDay | internal/service/export_tabular.go:450-472 | each cell of a flat row: the date, a category of the date's entries, their minutes, and actual and target of the date |
| Tabular.FlatRowsAre | internal/service/export_tabular.go:429-448 | the flat table has exactly one row per date and category of the date |
| Tabular.MatrixPrintsDay | internal/service/export_tabular.go:362-413 | under the header of a date a matrix row has the minutes of its category on that date |
| Tabular.MatrixPrintsCategory | internal/service/export_tabular.go:415-427 | before the dates it says what the category is |
| Tabular.ColumnsSplit | internal/service/export_tabular.go:362-413 | total columns go after the dates and the others before them, in template order |
| Tabular.RowByRow | internal/service/export_tabular.go:474-505 | detail and matrix have one row per entry and per category below their headers, in order |
| Tabular.MatrixTotalConserves | internal/service/export_tabular.go:395-411 | the total printed on a matrix row is the category's period total less exactly its minutes outside the period |
| Tabular.ExportsReadBack | internal/service/export_tabular.go:332-360 | every cell of each printed export can be recovered |
| SyncService.SyncPeriod | internal/service/sync.go:65-188 | the loops compute the specified merge and its counts, which `LedgerCounts.SyncCounts` explains; an error rolls every table back |
| SyncService.MergePulled | internal/service/sync.go:89-133 | one round of the pull loop computes its specification; what it counts is in `LedgerCounts.SyncCounts` |
| SyncService.MergeVanished | internal/service/sync.go:137-182 | one round of the vanish loop computes its specification |
| SyncService.HandleNewEvent | internal/service/sync.go:193-210 | computes the specified flags and automatic categories |
| SyncService.HandleChangedEvent | internal/service/sync.go:214-260 | computes the specified drift and conflict items |
| SyncService.ApplyRememberedCategory | internal/service/sync.go:296-315 | a remembered category overwrites the overlay |
| SyncService.ApplyDefaultCategory | internal/service/sync.go:264-292 | a calendar default applies only where there is no category |
| SyncService.HasCategory | internal/service/sync.go:325-340 | whether a category overlay holds a category |
| SyncService.MaterializeDraftForEvent | internal/service/sync_materialize.go:15-76 | computes the specified materialization and listing |
| SyncService.PartitionLinked | internal/service/sync_materialize.go:96-116 | the drafts in order, whether any row is confirmed, and whether all rows of a non-empty list are dismissed |
| SyncService.PartitionMeans | internal/service/sync_materialize.go:82-116 | what the partition of the linked rows says about the whole listing |
| SyncService.RefreshDraftFromEvent | internal/service/sync_materialize.go:162-203 | computes the specified conditional refresh |
| SyncService.CreateDraftFromEvent | internal/service/sync_materialize.go:118-160 | creates exactly the proposal and appends it to the listing |
| SyncService.HasOpenTentativeReview | internal/service/sync_materialize.go:238-252 | whether an open tentative item exists for the event |
| SyncService.OverlappingGapFingerprint | internal/service/review_policy.go:892-925 | the overlapped entries in listing order |
| SyncService.FlagNewEvent | internal/service/review_policy.go:157-218 | computes the specified flags for a new event |
| SyncService.FlagChangedCategorized | internal/service/review_policy.go:222-255 | computes the specified flags for a changed categorized event |
| SyncService.FlagConfirmedSourceDrift | internal/service/review_policy.go:260-306 | opens drift for exactly the confirmed linked rows with another revision |
| SyncService.FlagVanishedConfirmedSource | internal/service/review_policy.go:310-349 | keeps the event exactly when a confirmed linked row exists |
| SyncService.FlagVanishedCategorized | internal/service/review_policy.go:129-152 | computes the specified item and replay |
| SyncService.ResolveReviewDecision | internal/service/review.go:23-61 | applies a decision to an open item, as `LedgerAnswers.ReviewAnswered` describes, or changes nothing |
| SyncService.ExcludeCalendarEvent | internal/service/exclude_event.go:24-81 | excludes an event, as `LedgerAnswers.ExclusionAchieved` describes, or changes nothing |
| ReviewPolicy.Enqueue | internal/service/review_policy.go:63-93 | computes the specified item and recorded action |
| ReviewPolicy.EnqueueSourceDrift | internal/service/review_policy.go:353-406 | computes the specified create, update or reopen |
| ReviewPolicy.ApplyDecision | internal/service/review_policy.go:97-125 | computes the specified side effects and status per kind and action |
| ReviewPolicy.ApplyDeletedCategorized | internal/service/review_policy.go:566-595 | computes the specified keep or drop |
| ReviewPolicy.ConvertEventToManualFill | internal/service/review_policy.go:597-638 | computes the specified confirmed copy |
| ReviewPolicy.ApplyNewInGapAction | internal/service/review_policy.go:640-668 | computes the specified keep-gap, which excludes the event, or use-event, which trims the rows it meets |
| ReviewPolicy.ApplyIncludeExcludeAction | internal/service/review_policy.go:670-697 | computes the specified include or exclude |
| ReviewPolicy.ClearAllDayReviewExclusion | internal/service/review_policy.go:699-727 | lifts only an all-day event's exclusion |
| ReviewPolicy.SpawnSourceDriftDraft | internal/service/review_policy.go:486-564 | creates the specified draft from the first confirmed listed row |
| ReviewPolicy.ShrinkGapFillsForEvent | internal/service/review_policy.go:774-831 | the loop computes the trimming about which `UseEventTrims` speaks |
| ReviewPolicy.DismissLinkedDrafts | internal/service/sync_materialize.go:205-219 | dismisses exactly the drafts, failing on a missing row |
| ReviewPolicy.LinkedCalendarEntries | internal/service/sync_materialize.go:82-94 | the linked rows in listing order |
| EntryService.ConfirmTimeEntry | internal/service/time_entry_confirm.go:37-119 | computes the specified confirmation, whose outcome is in `LedgerPieces.ConfirmOutcome`, including what is lost on error |
| EntryService.ConfirmSplitAtMidnight | internal/service/time_entry_confirm.go:133-189 | replaces the draft by the rows of its days, each with its own minutes and date (`LedgerPieces.ConfirmOutcome`), or changes nothing |
| EntryService.ConfirmDraftAroundOverlaps | internal/service/time_entry_confirm.go:217-306 | computes the specified remainders and gate; what the rows hold is in `LedgerPieces.ConfirmOutcome` |
| EntryService.OverlappingConfirmed | internal/service/time_entry_confirm.go:191-214 | the overlapping confirmed rows in listing order |
| EntryService.RejectTimeEntry | internal/service/time_entry_confirm.go:385-414 | dismisses a draft and nothing else |
| EntryService.SplitTimeEntry | internal/service/time_entry_confirm.go:447-538 | computes the split, whose rows are in `LedgerPieces.SplitRows`, or changes nothing |
| EntryService.AdjustDraftTimeEntry | internal/service/time_entry_confirm.go:417-435 | edits a draft only |
| EntryService.UpdateEntryFields | internal/service/time_entry.go:93-133 | edits span, day, category, text and allocation, never attestation or provenance |

## Left out

- SQL, generated query code, JSON payloads and transactions: maps with the queries' keys and conditions; commit or rollback is one step. Timestamps of rows are not modelled.
- One period at a time: the tables of other periods, and periods sharing calendars, are not modelled.
- Event and review row ids: events are keyed by their unique calendar, external and instance ids and review items by kind and conflict key. Identities and conflict keys are tuples, so two that only collide as `|`-joined strings stay apart.
- Hashes: the source hash is its tuple of fields, and code hashes, S256 challenges and sealed payloads are injective constructors.
- Ties: rows of a listing with equal date and start come by row id, and spans sorted for a union keep their order when they start together; what `Union` returns does not depend on it (`NormalFormUnique`).
- Periods.RunPeriodsDisjoint: periods of a fixed length are disjoint only up to 106750 days from the anchor; later ones can overlap in the code (`SharedExactly`).
- LedgerDecisions.SplitConserves: promises no gained minutes only for drafts of up to 153722867 minutes; longer ones can gain some in the code (`SaturatedSplitGains`).
- Time zones and parsing: rows are well-formed, instants are whole seconds, the local date and the governing segment are functions of the environment, and text dates of years 0 to 9999 are day numbers.
- Entries whose span runs backwards: the confirmation theorems assume start at or before end; the ledger invariant and the runs do not.
- Concurrent desktop calls around unlocked checks: the ledger is sequential; only the broker is interleaved.
- Deleting a category or project, which clears references, and editing categories, projects, templates and settings.
- Suggestions: an optional category for new events; the clients behind them are not modelled.
- Provider calls, encryption, redirect validation, metrics, logging, HTTP and Connect adapters, refresh and revoke: parameters or absent.
- PurgeExpired: it compares formatted times as strings, whose order is not time order within a second; records are never purged in the model.
- Decimal hours, text summaries and template parsing: minutes are exact and cell formats are parameters.
- Schedule exceptions and the per-date resolution of expected time: gaps and exports take the resolved days as input.
- Range validation of manual edits and all-day conversions: the edited span and day are parameters.
- LedgerIdempotence.SyncIsIdempotent: like the other results that require `Unshared`, assumes unshared overlay slots, because overlays are keyed without the calendar while events are keyed with it.
- RateLimit.AdmissionBound: assumes a clock that never runs backwards and one positive limit per key, as the broker uses it.
- Export.BuildPeriodExport: does not model entries with an empty work date, which the schema's rows never have.
