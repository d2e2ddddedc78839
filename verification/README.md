# A verified model of the hosted flow runner, tenant isolation and the data ledgers

The project models, in Dafny, the parts of the system whose correctness is an argument over many steps:

- **The hosted flow runner** (`RecordLayer`, `Dispatching`, `Fairness`, `SpendBound`, `RunLedger`, `Parking`, `IdleReports`,
  `IdleRuns`, `Adapter`, `AgentBlindness`, `Bootstrap`, `Minting`, `Fleet`, `FleetRuns`, `Bundles`): a
  scheduler whose memory is lost at every restart while the record layer persists. Any request may be delivered,
  lost on the way there, or answered into the void; any call may raise. One value (`Look`) scripts everything the
  world does during one dispatch, so a statement about all looks is a statement about every environment. The classes carry the fields the Python classes carry, and
  each method is proved equal to a function of the old state; the theorems are about those functions and runs of
  them.
- **Row-level security** (`RowSecurity`, `Isolation`, `Statements`): the policies one migration installs, the rules
  PostgreSQL applies to them, what each statement then does row by row, and two-run noninterference for arbitrary statement sequences.
- **The integrity audit** (`Relational`, `Settlement`, `PayTerms`, `PayloadAudit`): the SQL is modelled as left
  join, group by and having over sequences of rows, and shown to compute what the audit says it computes; then
  what several passing checks imply together.
- **Migrations and export** (`Reachability`, `Slugs`, `Registrations`, `ReviewMigration`): the schema closure of
  the exported contract, slug allocation, and the two registration migrations.

`Options`, `Collections` and `Jsons` hold the option type, a few lemmas on sets, sequences and multisets, and JSON values.

## Where the code does not do what its comments say

The model follows the code. Each difference has a lemma.

- "No family can starve" (flow_runner/dispatcher.py:124-127) is true of a due subscription at position k, within
  k+1 passes, if and only if every earlier cadence is longer than those passes take: `Fairness.GuaranteedIff`.
  For every schedule of passes that breaks the condition there is a history since a restart, with every listing
  read from the records, after which a busy tenant starves it. And with one earlier cadence no longer than the way
  from pass to pass it is never reached at all: `Fairness.AlwaysHeldUp`.
- "One extra run may be spent" when a driver-state report is lost (flow_runner/dispatcher.py:353-355): each lost
  report costs one, without limit, and `max_unmoved_runs` below one still allows one turn:
  `SpendBound.BoundIsReached`.
- The idle memory is stamped before the row is written (flow_runner/dispatcher.py:319-331), so a standing
  reason gets one attempt in each process life. It reaches the ledger of a run if and only if the attempt of some
  life arrives: `IdleRuns.StandingReasonIsSaidIff`.
- `record_failed_check` "must never be the thing that raises" (flow_runner/dispatcher.py:266-269), but it catches
  `ApiError` only, and a dropped connection is an `OSError`. It raises exactly when one of its two requests, opening
  its row and closing it, meets such an exception: `RunLedger.FailedRowRaisesIff`, with
  `RunLedger.DroppedConnectionRaises` as an instance. The branch that calls it also raises when the driver-state
  report it makes first does (`RunLedger.FailedCheckRaisesIff`); for a whole dispatch see
  `RunLedger.DispatchRaisesIff`.
- A malformed stream is "never a failed run" (flow_runner/adapter.py:302-303), but the turn is spent and its report
  never sent exactly when a line of the stream is poison or the last thing said ends in a line that reading refuses:
  `Adapter.ParsedFailsIff`, `Adapter.PiRaisesIff`. Poison is an event whose `type` is a list or object, a text part
  that is not a string (`Adapter.NullTextLosesTheTurn`), and a line on which `json.loads` raises something other
  than a `JSONDecodeError`: a plain `ValueError` on an integer of too many digits, or `RecursionError`. The same in
  the trailing line of a text raises too (`Adapter.RefusedClaimLosesTheTurn`).
- "One extra mint per tenant" (flow_runner/config.py:42-46, flow_runner/bootstrap.py:70-76) holds if and only if no
  pass that loses the key comes before one that can mint: `Minting.MintOnceIff`, with what keeps a key in
  `Minting.MintsIff`. With no file, or one that cannot be written, every pass mints a key and rebuilds the
  dispatcher, cadence timers included: `Minting.ForgettingMintsEveryPass`, `Fleet.ForgettingRebuildsEveryPass`.
- One tenant's refusal "must not stop the others being served" (flow_runner/bootstrap.py:139-141), but only an
  `ApiError` is caught there, and nothing around `reconcile` catches more: a connection dropped while asking for one
  key, or a listed row without a tenant id, ends the process for every tenant. When it raises:
  `Minting.ResolveRaisesIff`, with `Minting.DroppedConnectionStopsEverybody` and `Minting.NamelessRowWastesKeys` as
  instances.
- A failed listing "must not read as you serve nobody" (flow_runner/bootstrap.py:114-117) is true of the
  operator's tenants only; every tenant the runner let itself into is dropped for that pass and starts over with
  a new dispatcher: `Minting.FailedListing`, `Fleet.FailedListingDropsDispatcher`.
- Strict writes "always need the matching tenant"
  (alembic/versions/20260703_0012_enable_row_level_security.py:25-26): a DELETE needs it exactly when the
  platform flag is off, and under the flag a session may turn another tenant's row into its own:
  `Isolation.DeleteNeedsTenantIff`, `Isolation.CanTakeIff`.
- "Only the schemas reachable from" the public paths are kept (scripts/export_openapi.py:34-35), and components of
  other kinds are kept without being followed. A document in which one of those referred to a schema of its own
  would dangle (`Reachability.OtherComponentsCanDangle`), and exactly such documents would:
  `Reachability.PrunedIsSoundIff`. FastAPI generates schemas and security schemes only, so none arises today.

Two more conditions are exact although no comment promises otherwise. A forced refresh of a bundle still usable, if
it fails and leaves something else in the directory, would make the cache hand out a bundle without its files, and
from a coherent cache nothing else would (flow_runner/bundles.py:72-98, `Bundles.NeverAGhostIff`); no caller forces
one (flow_runner/adapter.py:151), so none is handed out (`Bundles.UnforcedHandsOutNoGhost`). And a request that was
used up but whose workspace is gone counts as open again after the review migration
(alembic/versions/20260715_0020_add_registration_review.py:33-53, `ReviewMigration.RowByRow`).

## Model

| member | source | states |
|---|---|---|
| RecordLayer.RecordStore.ReportDriverState | app/api/flows.py:177-223 | the runner may raise its own stop and never lower it; a request changes the records exactly when it arrives, whatever the runner hears |
| RecordLayer.RecordStore.OpenRun | app/api/flows.py:264-295 | a run row is appended, running, for a known subscription only |
| RecordLayer.RecordStore.CloseRun | app/api/flows.py:298-326 | terminal is terminal: only a running row changes |
| RecordLayer.RecordStore.OperatorsClear | app/services/flow_subscriptions.py:241-250 | parks of the named subscriptions are lifted with their counters, nothing else moves |
| RecordLayer.ParkNeverFalls | app/api/flows.py:177-223 | a report that would lower a park is refused and changes nothing; any other about a known subscription is stored as it is, and nobody else's driver state moves |
| RecordLayer.CloseAnswers | app/api/flows.py:298-326 | a close is answered exactly when the row is there and running, and then changes its status and count only |
| RecordLayer.EndsOnce | app/api/flows.py:298-326 | a row that ended never ends again |
| RecordLayer.OpenAnswers | app/api/flows.py:264-295 | an opened row stands running at the end of the ledger and says what was asked; an unknown subscription gets none |
| RecordLayer.LiftedStartsOver | app/services/flow_subscriptions.py:241-250 | lifting a park forgets the counter too; a subscription that is not parked or not named keeps what it has |
| Dispatching.AgentAdapter.Run | flow_runner/adapter.py:67-85 | every request is recorded, once and in order |
| Dispatching.Dispatcher.StateFor | flow_runner/dispatcher.py:74-75 | a missing hint is created fresh, an existing one stands |
| Dispatching.Dispatcher.IsDue | flow_runner/dispatcher.py:77-86 | parked never; otherwise first time or cadence elapsed, with zero or missing cadence read as 300 |
| Dispatching.Dispatcher.Note | flow_runner/dispatcher.py:346-385 | counter reset or raised by one, park at the limit, and the report's fate on the wire |
| Dispatching.Dispatcher.RecordFailedCheck | flow_runner/dispatcher.py:266-283 | leaves at most one failed row, closed when its requests get through, and raises only on what is not an `ApiError` |
| Dispatching.Dispatcher.CheckFailed | flow_runner/dispatcher.py:150-180 | a failed check counts toward parking before its row is written |
| Dispatching.Dispatcher.ReportIdleLook | flow_runner/dispatcher.py:285-331 | which idle looks write a row, with the memory stamped before the write |
| Dispatching.Dispatcher.RunAgent | flow_runner/dispatcher.py:203-264 | from agent call to closed row: re-count, progress marks, driver state, in that order, with every way to raise |
| Dispatching.Dispatcher.DispatchOne | flow_runner/dispatcher.py:136-264 | the whole branch structure of one dispatch, on records, calls and hints |
| Dispatching.Dispatcher.VisitOne | flow_runner/dispatcher.py:104-110 | a due subscription is stamped before it is dispatched, one that is not due is passed over |
| Dispatching.Dispatcher.PollOnce | flow_runner/dispatcher.py:88-134 | the loop with its early stop equals the recursive pass, including passes that raise half-way |
| Dispatching.PollUnroll | flow_runner/dispatcher.py:104-134 | one step of the loop against the rest of the pass |
| Fairness.VisitFrame | flow_runner/dispatcher.py:77-113 | exactly the due subscription's hint changes, to the time of the pass |
| Fairness.PassFrame | flow_runner/dispatcher.py:104-134 | "nothing is dropped": only subscriptions the pass got to, all of them due, are touched; those after the stop keep their state |
| Fairness.FirstDueIsPolled | flow_runner/dispatcher.py:104-110 | the first subscription that is due is always polled |
| Fairness.HeldUpBy | flow_runner/dispatcher.py:104-133 | a due subscription that was not reached was held up by an earlier due one that was |
| Fairness.UsesUpOne | flow_runner/dispatcher.py:77-134 | each pass that misses index k uses up one earlier index for the rest of the window |
| Fairness.StillWaiting | flow_runner/dispatcher.py:77-134 | after p passes without k at most k - p earlier subscriptions can still hold it up |
| Fairness.BoundedWaiting | flow_runner/dispatcher.py:124-127 | with earlier cadences longer than the window, a due subscription at k is reached within k+1 passes, agent turns and raised passes included, from any hints and any listings |
| Fairness.Starvation | flow_runner/dispatcher.py:124-127 | one earlier cadence that fits into the window is enough: for every choice of pass times some history since a restart, with listings read from the records, starves k |
| Fairness.GuaranteedIff | flow_runner/dispatcher.py:124-127 | the exact condition under which no family starves, over every history of passes since a restart |
| Fairness.AlwaysOnSchedule | flow_runner/dispatcher.py:77-134 | in the starving window every pass goes to an earlier index: the others once each, and the one with the short cadence when they are used up |
| Fairness.BusyPass | flow_runner/dispatcher.py:111-134 | in a permanently busy tenant a pass polls exactly one subscription, the first that is due |
| Fairness.PrimedHistory | flow_runner/dispatcher.py:77-110 | passes that find nothing leave exactly the chosen poll times behind, so the starving hints are ones a run leaves |
| Fairness.StarvedWindow | flow_runner/dispatcher.py:77-134 | from them, a busy tenant's whole window passes index k by, with every listing honest |
| Fairness.AlwaysHeldUp | flow_runner/dispatcher.py:124-127 | the queue does not rotate by itself: with one earlier cadence no longer than the way from pass to pass, k is reached in none of any number of passes |
| SpendBound.ClearKeeps | app/services/flow_subscriptions.py:241-250 | lifting parks keeps the spend invariant |
| SpendBound.DispatchKeeps | flow_runner/dispatcher.py:136-264 | every dispatch keeps the spend invariant and touches no other subscription's driver state |
| SpendBound.PassKeeps | flow_runner/dispatcher.py:88-134 | every pass keeps it, with operators clearing parks in between |
| SpendBound.StillReadFrom | flow_runner/dispatcher.py:94-108 | what was read about the subscriptions still to come stays true while the runner works |
| SpendBound.RunKeeps | flow_runner/dispatcher.py:77-81 | the invariant over every interleaving of passes, restarts and operators |
| SpendBound.TurnsAreBounded | flow_runner/dispatcher.py:346-369 | since the last reset, agent turns are at most the limit plus the turns whose driver state never arrived, restarts included |
| SpendBound.FactsTellTheDriver | flow_runner/dispatcher.py:346-369 | what "recorded", "reset" and "unrecorded" mean for the stored driver state |
| SpendBound.CallsAreTurns | flow_runner/dispatcher.py:203-216 | the counted turns are the adapter's calls, in order |
| SpendBound.ParkHolds | flow_runner/dispatcher.py:77-81 | while nobody lifts a park the subscription costs nothing, over any run |
| SpendBound.BoundIsReached | flow_runner/dispatcher.py:353-355 | the bound is tight for any number of lost reports |
| RunLedger.DispatchLedger | flow_runner/dispatcher.py:136-331 | one dispatch adds at most one row, its own, and returns it closed |
| RunLedger.DispatchTurn | flow_runner/dispatcher.py:136-264 | at most one agent call, and a dispatch that made one raised or says so |
| RunLedger.FailedRowRaisesIff | flow_runner/dispatcher.py:266-283 | `record_failed_check` alone raises exactly when its open request, or the close request of the row it opened, meets something other than an `ApiError` |
| RunLedger.FailedCheckRaisesIff | flow_runner/dispatcher.py:150-180 | the branch of a failed check raises exactly when that does, or the driver-state report before it meets something other than an `ApiError` |
| RunLedger.DroppedConnectionRaises | flow_runner/dispatcher.py:266-283 | a connection dropped while it opens its row makes it raise |
| RunLedger.DispatchRaisesIff | flow_runner/dispatcher.py:136-331 | exactly when a dispatch raises, over everything it can meet |
| RunLedger.DispatchOpenIff | flow_runner/dispatcher.py:136-331 | a row a dispatch adds stays open exactly when its open answer was lost, its close request did not arrive, or the turn broke in between |
| RunLedger.PassLedger | flow_runner/dispatcher.py:88-134 | old rows stand, at most one new row per subscription and only for those reached, every returned row is new and closed |
| RunLedger.PassTurn | flow_runner/dispatcher.py:108-134 | at most one agent turn a pass, by the last subscription reached, and its row is the last recorded |
| RunLedger.OpenRowsAreAccountedFor | flow_runner/dispatcher.py:88-134 | of every row a pass adds, whatever happened to the others: it is left open exactly when its own subscription's look leaves it open |
| RunLedger.CalmPass | flow_runner/dispatcher.py:88-134 | when nothing goes missing the pass returns exactly the rows it opened, failed checks included, so all of them are closed |
| Parking.DueIff | flow_runner/dispatcher.py:77-86 | a look is due exactly when the subscription is not parked and was never polled, or a cadence has passed since, five minutes when it has none or zero |
| Parking.TurnCounts | flow_runner/dispatcher.py:217-264 | a turn whose report arrives leaves the counter at 0 exactly when a mark grew, something left the queue as counted again, or, not counted again, a positive claim is believed; otherwise one higher, parked exactly at the limit |
| Parking.TurnRow | flow_runner/dispatcher.py:203-264 | its ledger row: the queue it found, what left it while the agent ran, and the adapter's verdict |
| Parking.FailedCheckCounts | flow_runner/dispatcher.py:150-180 | a failed check whose report arrives leaves the counter one higher, parked exactly at the limit, and calls nobody |
| Parking.FailedCheckRow | flow_runner/dispatcher.py:266-283 | its ledger row is a failed one that counts nothing |
| Parking.IdleRowIs | flow_runner/dispatcher.py:285-331 | a look that finds nothing moves no counter; the row it writes is a skipped one with an empty queue and the look's reason |
| Parking.CheapLooksDoNotStop | flow_runner/dispatcher.py:104-134 | a pass that returns without having called the agent got to everything that was due |
| Parking.UnreadableListing | flow_runner/dispatcher.py:94-100 | a listing that answers an error ends the pass quietly, one that breaks raises, and nothing else has happened |
| Parking.DispatchElsewhere | flow_runner/dispatcher.py:136-331 | looking at one subscription moves nobody else's driver state |
| Parking.PassCounts | flow_runner/dispatcher.py:88-134 | over one pass the counter rises by the looks the pass took at the subscription, and it is parked by the one that reaches the limit |
| Parking.NowhereIsParked | flow_runner/dispatcher.py:346-369 | over any run: a subscription whose checks keep failing or whose turns move nothing is parked by exactly the look that reaches the limit, restarts and everybody else's business included, and is not looked at again while nobody lifts the park |
| IdleReports.DispatchObserves | flow_runner/dispatcher.py:146-183 | dispatching is one step of the idle trace: same memory, and a row exactly when the step writes one that arrives |
| IdleReports.RowsSayLatest | flow_runner/dispatcher.py:285-331 | over any trace the newest row states the latest look's reason; neighbours of one life never repeat a reason, heartbeats keep their distance |
| IdleReports.RowsKeepTheirDistance | flow_runner/dispatcher.py:303-331 | neighbours keep apart whatever was remembered at first |
| IdleReports.HeartbeatsKeepTheirDistance | flow_runner/dispatcher.py:314-318 | heartbeats of one life are the interval apart for every step between them |
| IdleReports.ChangeIsReported | flow_runner/dispatcher.py:305-318 | a changed or lifted reason is written whatever the heartbeat clock says |
| IdleReports.WritesIff | flow_runner/dispatcher.py:303-320 | which looks write a row: the first of a life, one whose reason is not the one before, a heartbeat that has come due |
| IdleReports.NewestThroughIsNewest | flow_runner/dispatcher.py:303-331 | the newest look that got through is the last one that wrote and whose row arrived |
| IdleReports.TraceByLooks | flow_runner/dispatcher.py:285-331 | what arrived of a trace, told by its looks and arrivals alone |
| IdleReports.RepeatIsExplained | flow_runner/dispatcher.py:296-331 | a stated reason next to itself among the rows that arrived was written in two lives, or a row that says otherwise was lost in between |
| IdleReports.LostLiftRepeats | flow_runner/dispatcher.py:308-331 | the second happens |
| IdleReports.RestartRepeats | flow_runner/dispatcher.py:296-331 | and so does the first |
| IdleReports.LedgerSaysLatest | flow_runner/dispatcher.py:296-301 | the newest row to arrive tells the latest look's reason exactly when the newest look that got through had that reason |
| IdleReports.StandingIsSaidIff | flow_runner/dispatcher.py:305-331 | over any looks at a standing condition and any restarts, its reason gets through if and only if the first look of some process life does |
| IdleReports.OneAttemptALife | flow_runner/dispatcher.py:305-331 | within one life: one attempt, at the first look, unless the memory holds the reason already |
| IdleReports.LostReasonStaysUnsaid | flow_runner/dispatcher.py:319-331 | a stated reason whose row was lost stays unsaid for the rest of that process life |
| IdleReports.RestartSpeaksUp | flow_runner/dispatcher.py:33-54 | after a restart the first look is always an attempt |
| IdleRuns.RunTellsIdle | flow_runner/dispatcher.py:88-183 | the idle rows a whole run adds to the ledger for one subscription are the trace's attempts that arrived |
| IdleRuns.LedgerIsRightIff | flow_runner/dispatcher.py:285-331 | the newest idle row in the ledger after any run tells the latest look's reason exactly when the newest look that got through had it, or none got through and the older row says it |
| IdleRuns.RepeatedReasonIsExplained | flow_runner/dispatcher.py:296-331 | the same of neighbouring idle rows in the ledger of a run |
| IdleRuns.StandingReasonIsSaidIff | flow_runner/dispatcher.py:285-331 | when a run writes a standing condition's reason into the ledger |
| Adapter.ParseEvents | flow_runner/adapter.py:299-375 | the loop over the stream and the reading of its last text compute the summary, or raise |
| Adapter.JoinTextsFailsIff | flow_runner/adapter.py:352-364 | joining text parts raises exactly when one of them is not text |
| Adapter.LineFailsIff | flow_runner/adapter.py:310-337 | a line raises exactly when reading refuses it with something other than a `JSONDecodeError`, or it is one of two malformed shapes |
| Adapter.ParseMeaning | flow_runner/adapter.py:299-349 | the lines are read to the end exactly when none is poison; then tool calls are counted, errors are on record exactly when an assistant message failed, and the last text is the last thing said |
| Adapter.ParsedFailsIff | flow_runner/adapter.py:299-375 | a stream raises exactly when it has a poison line or the last thing said ends in a line that reading refuses |
| Adapter.ErrorsMeaning | flow_runner/adapter.py:318-336 | from any line on, the failed tool calls are added in order, and of the failures assistant messages report those not on record word for word, cut to what fits |
| Adapter.ErrorsOnRecord | flow_runner/adapter.py:299-349 | all errors a stream leaves in the summary, in order; a failure too long to fit is put on record each time |
| Adapter.PiVerdict | flow_runner/adapter.py:242-296 | a run is ok exactly when pi ran, exited 0 and no assistant message failed, and it never claims a count |
| Adapter.PiDetail | flow_runner/adapter.py:269-296 | the detail names tool errors exactly when a tool call failed, model errors exactly when a message did, and a claim exactly when the last thing said ends in one |
| Adapter.PiRaisesIff | flow_runner/adapter.py:149-296 | exactly when a run raises and its turn's report is lost |
| Adapter.WhatAnAdapterCanSay | flow_runner/dispatcher.py:222-256 | with the queue re-counted no adapter's word matters; without, exactly when its claim is believed |
| Adapter.PiIsNotBelieved | flow_runner/adapter.py:289-296 | for pi the record layer alone decides what advanced and whether anything moved |
| Adapter.TurnIndependence | flow_runner/dispatcher.py:217-264 | two results with the same evidence leave the same driver states, facts and hints, and ledgers equal but for one verdict |
| Adapter.AgentOutputIndependence | flow_runner/dispatcher.py:217-264 | two worlds that differ only in pi's exit code and output leave the same counters, parks, advanced counts and rows |
| Adapter.OnlyRaisingTells | flow_runner/adapter.py:299-364 | pi changes the record of a turn exactly by making the adapter raise |
| Adapter.NullTextLosesTheTurn | flow_runner/adapter.py:352-364 | one null text part is enough to lose the turn's report |
| Adapter.RefusedClaimLosesTheTurn | flow_runner/adapter.py:367-375 | one well-formed message whose text ends in such a line is enough as well |
| AgentBlindness.SameClose | app/api/flows.py:298-326 | closing a row one way or another is the same but for its verdict |
| AgentBlindness.SameDispatch | flow_runner/dispatcher.py:136-264 | a dispatch from ledgers that differ in verdicts only, with different pi results, ends the same but for verdicts |
| AgentBlindness.SamePoll | flow_runner/dispatcher.py:88-134 | so does a whole pass |
| AgentBlindness.SameRun | flow_runner/dispatcher.py:217-256 | over any run with restarts, lost requests and operators, calls, counters, parks, advanced counts and hints do not depend on pi's exit codes, streams or self-reported numbers |
| Bootstrap.SavedIsRemembered | flow_runner/bootstrap.py:70-103 | what is written is what is read back, empty keys excepted |
| Bootstrap.Bootstrapper.Remember | flow_runner/bootstrap.py:89-103 | only a configured state file is written, and a failed write is never fatal |
| Bootstrap.Bootstrapper.ResolveTenants | flow_runner/bootstrap.py:105-156 | the loop over the listing, with every refusal and exception, against its meaning |
| Minting.AdmitSettled | flow_runner/bootstrap.py:130-131 | a tenant with a key is not asked about again and keeps it |
| Minting.AdmitRemembered | flow_runner/bootstrap.py:132-135 | a remembered key is taken up for a listed tenant and costs nothing |
| Minting.AdmitNew | flow_runner/bootstrap.py:136-146 | an unknown tenant gets the first key issued and only that one |
| Minting.WantedExactly | flow_runner/bootstrap.py:105-156 | who is served and with which key: the operator's word, then memory, then the control plane |
| Minting.FileHolds | flow_runner/bootstrap.py:126-156 | after a completed, written pass the file remembers a tenant exactly if the operator does not configure it and it was remembered and listed, or was not remembered and its first issued key is not empty; the key is then the one served |
| Minting.FileStands | flow_runner/bootstrap.py:105-156 | a pass that fails to list or raises, and one without a file, leaves the file as it was; a failed write leaves what it leaves |
| Minting.RememberedIff | flow_runner/bootstrap.py:70-87 | the file remembers a tenant exactly when it is an object with a non-empty text under its name |
| Fleet.WantedAreNamed | flow_runner/bootstrap.py:105-156 | nobody is served whom neither the operator nor the listing names |
| Minting.FailedListing | flow_runner/bootstrap.py:114-124 | a failed listing serves exactly the operator's tenants under the last key written for each, issues nothing and forgets nothing |
| Minting.AdmitRaisesIff | flow_runner/bootstrap.py:128-146 | the loop raises exactly when asking for some key meets an exception other than an `ApiError` |
| Minting.ResolveRaisesIff | flow_runner/bootstrap.py:105-156 | exactly when the call raises, for all tenants at once |
| Minting.DroppedConnectionStopsEverybody | flow_runner/bootstrap.py:136-143 | one connection dropped while asking for one key is enough |
| Minting.NamelessRowWastesKeys | flow_runner/bootstrap.py:128-146 | a listed row without a tenant id does the same, and the keys issued before it are lost |
| Minting.KeyStands | flow_runner/bootstrap.py:126-152 | a remembered key survives every pass unminted |
| Minting.FirstIssue | flow_runner/bootstrap.py:126-152 | a pass keeps at most one new key for a tenant and then remembers it |
| Minting.MintOnce | flow_runner/bootstrap.py:70-156 | with a working state file a tenant that stays listed is issued at most one kept credential over any number of passes, failed listings and aborted passes included |
| Minting.MintsAccountedFor | flow_runner/bootstrap.py:136-152 | every credential beyond the first belongs to a pass that lost the answer or raised and threw its keys away, and each such pass costs at most one |
| Minting.RememberedKeyIsServed | flow_runner/bootstrap.py:126-135 | in every pass that serves it, the tenant has its remembered key |
| Minting.KeyNeverChanges | flow_runner/bootstrap.py:126-152 | its key is the same in every tenant set it appears in |
| Minting.MintsIff | flow_runner/bootstrap.py:70-156 | any pass mints exactly when it can get the key and the file holds none, and leaves a key behind exactly when it keeps it |
| Minting.MintsCounted | flow_runner/bootstrap.py:70-156 | over any passes, one credential for every pass that is able to mint and starts without one |
| Minting.MintOnceIff | flow_runner/config.py:42-46 | one mint and no more if and only if no pass that loses the key comes before one that is able to mint; failed listings, refusals and raised passes included |
| Minting.ForgettingMintsEveryPass | flow_runner/bootstrap.py:70-103 | with no file configured, or one that cannot be written, every pass mints a key for every workspace |
| Fleet.PollIgnoresCalls | flow_runner/__main__.py:178-189 | a pass does not depend on whom else the shared adapter has worked for |
| Fleet.PollOne | flow_runner/__main__.py:181-189 | one tenant's turn is that tenant's pass, raised or not |
| Fleet.PollAll | flow_runner/__main__.py:178-189 | every tenant is polled as it would be alone; one tenant's exception reaches nobody else |
| Fleet.Runner.Reconcile | flow_runner/__main__.py:68-121 | what `Fleet.OperatorsFileIsAll`, `Fleet.TokenResolves` and `Fleet.UnreadableCredentials` say of a pass, on the objects: the dispatchers are exactly the wanted tenants with their keys, kept where the key stands, fresh otherwise, untouched when the credentials cannot be read |
| Fleet.Runner.Match | flow_runner/__main__.py:107-121 | the loop that keeps or builds each dispatcher |
| Fleet.OperatorsFileIsAll | flow_runner/__main__.py:84-106 | without a bootstrap token a pass serves exactly the tenants the operator's file names, each under the last key written for it, and leaves the state file alone |
| Fleet.TokenResolves | flow_runner/__main__.py:96-106 | with one it serves what `resolve_tenants` resolves, or raises with it |
| Fleet.UnreadableCredentials | flow_runner/__main__.py:84-94 | credentials that cannot be read keep every dispatcher, anything stranger raises, and neither touches the state file |
| Fleet.LoadsAreBoots | flow_runner/__main__.py:84-121 | with a token and readable credentials the general account of a fleet's passes is the account of its listings |
| Fleet.TracksOneMore | flow_runner/__main__.py:107-121 | one reconcile keeps the account of which dispatchers are the same object |
| Fleet.ReconcileOnce | flow_runner/__main__.py:68-121 | one reconcile on the objects, against the slots of all passes so far, in each of those cases |
| Fleet.ReconcileAll | flow_runner/__main__.py:158-159 | over any passes, with a bootstrap token or without and whatever reading the credentials comes to: two dispatchers of a tenant are one object exactly when one pass built both, and none loses its hints |
| Fleet.DispatcherLasts | flow_runner/__main__.py:80-82 | with a working state file the dispatcher object that serves a listed tenant in one pass serves it in every later pass whose listing answers |
| Fleet.FailedListingDropsDispatcher | flow_runner/bootstrap.py:114-124 | one failed listing and a let-in tenant has no dispatcher; the next one is another object |
| Fleet.FailedListingKeepsExactly | flow_runner/bootstrap.py:114-124 | the dispatchers that survive a failed listing are exactly those configured with the key they have |
| Fleet.ForgettingRebuildsEveryPass | flow_runner/__main__.py:107-121 | where no pass keeps its keys, every pass serves the tenant with another object |
| FleetRuns.PassIsAlone | flow_runner/__main__.py:178-189 | a turn in the fleet is the tenant's pass on its own |
| FleetRuns.ShareOfAPass | flow_runner/__main__.py:107-121 | what a pass does to a tenant: nothing when it is not served, else its pass, after a restart if its dispatcher was rebuilt |
| FleetRuns.EnterPass | flow_runner/__main__.py:158-159 | a reconcile leaves every tenant's records, and its hints exactly with its dispatcher |
| FleetRuns.PollTenant | flow_runner/__main__.py:178-189 | one turn moves nobody else |
| FleetRuns.PollEverybody | flow_runner/__main__.py:178-189 | everybody served has one turn, in any order of the map |
| FleetRuns.ServePass | flow_runner/__main__.py:158-189 | one pass of the process on every tenant's hints and records |
| FleetRuns.ServeStep | flow_runner/__main__.py:158-189 | it brings every tenant's share up to date |
| FleetRuns.ServeAll | flow_runner/__main__.py:155-192 | the process loop, with a bootstrap token or without: after any passes every tenant stands where its own share of them, a run with restarts where its dispatcher was rebuilt, leaves it |
| FleetRuns.FleetTurnsAreBounded | flow_runner/__main__.py:155-192 | so the spending bound holds of every tenant of a fleet |
| FleetRuns.SmallFleet | flow_runner/bootstrap.py:114-156 | an operator's tenant and a let-in one over two passes, the second with a failed listing |
| FleetRuns.DriveTwoPasses | flow_runner/__main__.py:155-192 | the process loop on that fleet |
| FleetRuns.MatchTwoPasses | flow_runner/__main__.py:107-121 | on its objects: the operator's tenant keeps its dispatcher, the other loses it |
| Bundles.ExtractSafely | flow_runner/bundles.py:118-130 | one escaping member and nothing is written; otherwise every member lands under the root |
| Bundles.PlainNamesPass | flow_runner/bundles.py:125-130 | an ordinary name is never refused and is written where it was checked |
| Bundles.UpsEscapeIff | flow_runner/bundles.py:118-130 | a relative name that starts by going up is refused unless it comes down the same directories again |
| Bundles.AbsoluteEscapesIff | flow_runner/bundles.py:118-130 | an absolute name is refused unless it names a place below the root |
| Bundles.BundleStore.EnsureBundle | flow_runner/bundles.py:72-115 | cache, time to live, emptying of the directory and every way to fail, on memory and disk |
| Bundles.EnsureHandsOut | flow_runner/bundles.py:72-115 | a young bundle is handed out as it is unless a refresh is forced; otherwise a bundle is handed out exactly when a whole archive with a manifest and no escaping member came back, and then it is installed and on disk |
| Bundles.CacheIsOwned | flow_runner/bundles.py:72-115 | over any calls at all a returned bundle was fetched for that tenant and is younger than the time to live or just fetched |
| Bundles.EnsureIsSound | flow_runner/bundles.py:72-115 | one call on a coherent store returns a sound bundle, and the store stays coherent exactly when the call is not a failing forced refresh of a bundle still usable |
| Bundles.CacheIsSound | flow_runner/bundles.py:58-115 | until a call breaks the store, every returned bundle is this tenant's, young or just fetched, and on disk |
| Bundles.NeverAGhostIff | flow_runner/bundles.py:72-115 | over any calls in order, no point hands out a bundle without its files if and only if no call is such a refresh |
| Bundles.UnforcedHandsOutNoGhost | flow_runner/adapter.py:149-153 | the calls the adapter makes, none of them forced, never hand out such a bundle |
| Bundles.FailedRefreshLeavesAGhost | flow_runner/bundles.py:72-98 | the smallest call sequence that would hand out a bundle without files |
| RowSecurity.Catalog.SecureStrict | alembic/versions/20260703_0012_enable_row_level_security.py:53-62 | enable, drop, create on one strict table, re-runnable |
| RowSecurity.Catalog.SecureAuth | alembic/versions/20260703_0012_enable_row_level_security.py:63-80 | the three policies of an authentication table |
| RowSecurity.Catalog.SecureStrictTables | alembic/versions/20260703_0012_enable_row_level_security.py:53-62 | the first loop secures every strict table and no other |
| RowSecurity.Catalog.SecureAuthTables | alembic/versions/20260703_0012_enable_row_level_security.py:63-80 | the second loop secures every authentication table and no other |
| RowSecurity.Catalog.Upgrade | alembic/versions/20260703_0012_enable_row_level_security.py:51-80 | the catalogue after the migration, table by table, other policies standing |
| Isolation.UpgradeInstalls | alembic/versions/20260703_0012_enable_row_level_security.py:51-80 | on tables without policies the upgrade leaves one of two settings, and running it again changes nothing |
| Isolation.StrictRules | alembic/versions/20260703_0012_enable_row_level_security.py:25-62 | who may read, change, delete and produce a strict row |
| Isolation.AuthRules | alembic/versions/20260703_0012_enable_row_level_security.py:42-80 | anyone reads, nobody deletes, writes take tenant or platform |
| Isolation.DeleteNeedsTenantIff | alembic/versions/20260703_0012_enable_row_level_security.py:25-26 | deletes need the tenant exactly when the platform flag is off |
| Isolation.SeesItsOwn | alembic/versions/20260703_0012_enable_row_level_security.py:47-62 | a tenant session sees of a strict table exactly its own rows |
| Isolation.UpdatesItsOwn | alembic/versions/20260703_0012_enable_row_level_security.py:47-80 | an UPDATE on the table is the UPDATE on the tenant's rows alone: result, count and violations |
| Isolation.DeletesItsOwn | alembic/versions/20260703_0012_enable_row_level_security.py:47-80 | a DELETE on the table is the DELETE on the tenant's rows alone: result and count |
| Statements.SelectDoes | alembic/versions/20260703_0012_enable_row_level_security.py:47-80 | a SELECT answers its query on the rows the session may read, each as often as it is there, and changes nothing |
| Statements.DeleteDoes | alembic/versions/20260703_0012_enable_row_level_security.py:47-80 | a DELETE takes exactly the rows it asks for and may delete, and says how many |
| Statements.UpdateDoes | alembic/versions/20260703_0012_enable_row_level_security.py:47-80 | an UPDATE turns exactly the rows it asks for and may change into what it says, in place, and says how many; if it may not write one of them it does nothing |
| Statements.InsertDoes | alembic/versions/20260703_0012_enable_row_level_security.py:47-80 | an INSERT adds its rows at the end, all of them or none |
| Isolation.StatementNoninterference | alembic/versions/20260703_0012_enable_row_level_security.py:27-80 | one statement: same outcome from databases the tenant cannot tell apart, and still the same to it afterwards |
| Isolation.Noninterference | alembic/versions/20260703_0012_enable_row_level_security.py:27-80 | any sequence of statements, each computed from whatever the session can see; a blind write to an authentication table needs agreement on the tenant's own rows only |
| Isolation.OthersStand | alembic/versions/20260703_0012_enable_row_level_security.py:27-80 | other tenants' rows stand in every secured table, whatever a tenant session does |
| Isolation.ElsewhereLeavesOwn | alembic/versions/20260703_0012_enable_row_level_security.py:27-80 | a statement under another tenant's session, or an unbound one, leaves a tenant's rows as they were |
| Isolation.InterleavingDoesNotShow | alembic/versions/20260703_0012_enable_row_level_security.py:27-80 | in any interleaving of tenants' sessions, a tenant that reads strict tables gets the outcomes, and keeps the rows, it would have alone |
| Isolation.UnboundStatement | alembic/versions/20260703_0012_enable_row_level_security.py:47-80 | one statement of an unbound session changes nothing |
| Isolation.UnboundChangesNothing | alembic/versions/20260703_0012_enable_row_level_security.py:47-80 | an unbound session sees no strict row and changes no row |
| Isolation.NewStrictRowsAreBound | alembic/versions/20260703_0012_enable_row_level_security.py:56-62 | whatever the flags, a row brought into a strict table carries the bound tenant |
| Isolation.CanTakeIff | alembic/versions/20260703_0012_enable_row_level_security.py:56-62 | a session can turn another tenant's row into one of its own exactly when it is bound and runs under the platform flag |
| Isolation.TakingIsAnUpdate | alembic/versions/20260703_0012_enable_row_level_security.py:56-62 | and it does so by a plain UPDATE |
| Isolation.PlatformCanTakeARow | alembic/versions/20260703_0012_enable_row_level_security.py:56-62 | the converse is false under the platform flag |
| Relational.GroupedLeftJoin | scripts/data_integrity_audit.py:239-247 | left join and group by give every left row once beside all its matches |
| Relational.SumOfCells | scripts/data_integrity_audit.py:245-246 | the coalesced sum is the ledger sum, the empty ledger included |
| Relational.FanOut | scripts/data_integrity_audit.py:301-314 | joining two ledgers at once counts each entry once per row of the other |
| Settlement.CheckIsNaive | scripts/data_integrity_audit.py:239-247 | left join, group by, having report exactly the parents whose own ledger differs, for any such check |
| Settlement.ItemCheckExact | scripts/data_integrity_audit.py:238-248 | the inventory check reports exactly the items whose totals differ from their own ledger |
| Settlement.InvoiceCheckExact | scripts/data_integrity_audit.py:315-324 | the same for invoices |
| Settlement.ClaimCheckExact | scripts/data_integrity_audit.py:325-334 | the same for expense claims |
| Settlement.AccountCheckExact | scripts/data_integrity_audit.py:380-392 | the same for billing accounts |
| Settlement.PaymentCheckExact | scripts/data_integrity_audit.py:301-314 | the payment check reports exactly the payments whose totals differ from either side's allocations |
| Settlement.PostedUnderAll | scripts/data_integrity_audit.py:305-334 | summing a ledger column parent by parent is summing it row by row, when every key names one parent |
| Settlement.OneTargetEach | app/models.py:3857-3863 | with exactly one target a row, the source side splits into the four target columns |
| Settlement.Conservation | scripts/data_integrity_audit.py:301-334 | three passing checks together: payments' totals equal invoices plus claims plus account rows plus twice the netted rows |
| Settlement.JoinedAtOnceIsRightIff | scripts/data_integrity_audit.py:301-314 | exactly when one joined query in place of the two subqueries would agree with the ledger |
| PayTerms.TwicePairs | scripts/data_integrity_audit.py:463-473 | the self-join counts each unordered overlapping pair twice |
| PayTerms.ClashIffSharedDay | scripts/data_integrity_audit.py:471-472 | the range test is sharing a day, open ends included |
| PayTerms.OverlapCheckExact | scripts/data_integrity_audit.py:459-473 | zero rows exactly when nobody has two of the same term in force on any day |
| PayTerms.BackwardTermIsReported | scripts/data_integrity_audit.py:480-483 | why the period constraint at app/models.py:3648-3651 is needed for that |
| PayloadAudit.StreamedAudit | scripts/data_integrity_audit.py:889-920 | the streamed loop with its validator cache sees and fails exactly what a fresh validator per object would, in order |
| PayloadAudit.SchemasIff | scripts/data_integrity_audit.py:889-894 | a type is governed exactly when its last active definition has a schema, and by that one |
| PayloadAudit.GovernedRows | scripts/data_integrity_audit.py:899-910 | what is audited is every object not deleted whose type is governed |
| PayloadAudit.ViolationsIff | scripts/data_integrity_audit.py:915-920 | the failure list holds, for each governed object that fails, the first thing wrong with it under its tenant's name, and nothing else |
| Reachability.ReferencesExactly | scripts/export_openapi.py:19-31 | the collected names are those of objects with a `$ref` somewhere inside the value, and only those |
| Reachability.ReachableIsLeast | scripts/export_openapi.py:49-55 | every closed set with the roots holds everything reachable |
| Reachability.Enqueue | scripts/export_openapi.py:53-55 | each new reference is marked and queued once |
| Reachability.CloseWithin | scripts/export_openapi.py:49-55 | the worklist ends on every graph, cycles included, in a closed set with the roots that lies inside every such set given |
| Reachability.Close | scripts/export_openapi.py:49-55 | that set is exactly the names some chain of references leads to |
| Reachability.PublicPathsIff | scripts/export_openapi.py:41-45 | the paths kept are those under `/api/v1/`, each as it was |
| Reachability.ConsoleContract | scripts/export_openapi.py:34-59 | public paths, other components as they were, and of the schemas, unchanged, exactly the reachable ones |
| Reachability.PrunedIsSoundIff | scripts/export_openapi.py:34-59 | paths and schemas never dangle; the whole document does not exactly when other components refer to reachable schemas only |
| Reachability.OtherComponentsCanDangle | scripts/export_openapi.py:47-59 | a document whose pruned form dangles |
| Slugs.SlugForIsSlug | alembic/versions/20260714_0019_add_tenant_slug.py:33-36 | whatever the domain, the slug has the shape and fits |
| Slugs.SlugForSpells | alembic/versions/20260714_0019_add_tenant_slug.py:33-36 | it spells the domain's letters and digits up to the cut; the random fallback is for domains without any |
| Slugs.SlugForIs | alembic/versions/20260714_0019_add_tenant_slug.py:33-36 | to the letter: the words of the label with single dashes between them, cut to what fits without ending in a dash |
| Slugs.DecimalReadsBack | alembic/versions/20260714_0019_add_tenant_slug.py:55 | the decimal suffix reads back as its number |
| Slugs.CandidatesDiffer | alembic/versions/20260714_0019_add_tenant_slug.py:54-57 | different suffixes give different candidates whatever was cut off |
| Slugs.CandidateIs | alembic/versions/20260714_0019_add_tenant_slug.py:54-57 | to the letter: as much of the base as leaves room for the number, without ending in a dash, and the number |
| Slugs.CandidateFitsIff | alembic/versions/20260714_0019_add_tenant_slug.py:54-57 | a candidate has the shape and fits exactly for suffixes below 10^22 |
| Slugs.Allocate | alembic/versions/20260714_0019_add_tenant_slug.py:52-58 | the base if free, else the first free numbered candidate, among at most as many as slugs are taken, and one more for a base that is its own candidate |
| Slugs.TenantTable.FillRow | alembic/versions/20260714_0019_add_tenant_slug.py:51-62 | one row of the loop: its slug is chosen among those taken at that moment |
| Slugs.TenantTable.Upgrade | alembic/versions/20260714_0019_add_tenant_slug.py:39-62 | slugs already there stand, every other row gets the slug chosen at its turn |
| Slugs.FilledIsOne | alembic/versions/20260714_0019_add_tenant_slug.py:51-62 | that determines the table completely |
| Slugs.FilledMeansUnique | alembic/versions/20260714_0019_add_tenant_slug.py:51-66 | no new slug is anybody else's, so the unique index can be built; every new slug has the shape and fits in any table of fewer than 10^22 - 2 rows |
| Slugs.NewSlugsFit | alembic/versions/20260714_0019_add_tenant_slug.py:30-57 | a slug chosen among fewer than 10^22 - 2 taken ones has the shape and fits |
| Registrations.RegistrationTable.Upgrade | alembic/versions/20260715_0021_harden_registration_secrets.py:30-71 | the row loop and the ordered updates, in place |
| Registrations.FirstIff | alembic/versions/20260715_0021_harden_registration_secrets.py:51-55 | row number one means nobody in the partition is newer by (created_at, id) |
| Registrations.CanonicalIs | alembic/versions/20260715_0021_harden_registration_secrets.py:37-46 | a stored domain is replaced by its canonical form, and kept when there is none or it is empty |
| Registrations.RowByRow | alembic/versions/20260715_0021_harden_registration_secrets.py:30-71 | the whole row afterwards: the newest request of a canonical domain stays, every other active one is rejected with the times and reason it lacks, no closed row keeps a secret, nothing else changes |
| Registrations.NewestExists | alembic/versions/20260715_0021_harden_registration_secrets.py:48-66 | a domain with active requests has a newest one |
| Registrations.OneActivePerDomain | alembic/versions/20260715_0021_harden_registration_secrets.py:48-75 | exactly one active request per canonical domain that had one, so the partial unique index can be built |
| Registrations.HardenedIsSettled | alembic/versions/20260715_0021_harden_registration_secrets.py:48-75 | afterwards one active request per domain and no secret on a closed one |
| Registrations.SecondRunIsIdleIff | alembic/versions/20260715_0021_harden_registration_secrets.py:30-71 | a second run changes nothing exactly when the active domains left are canonical |
| Registrations.IdempotentCanonIsEnough | alembic/versions/20260715_0021_harden_registration_secrets.py:37-46 | which idempotent canonicalisation ensures |
| ReviewMigration.ReviewTable.Upgrade | alembic/versions/20260715_0020_add_registration_review.py:33-74 | the two backfills and the ranked rejection, in order |
| ReviewMigration.RowByRow | alembic/versions/20260715_0020_add_registration_review.py:33-74 | the whole row afterwards: approved means used up by a workspace that exists, waiting for its email means the newest of the rest, rejected every other, with times and reason for each |
| ReviewMigration.IndexesCanBeBuilt | alembic/versions/20260715_0020_add_registration_review.py:93-100 | at most one active request per domain, and per address when an address determines its domain |

## Left out

- Fairness.GuaranteedIff: the window is k+1 passes with strictly increasing times and a listing whose order and cadences stand still; a listing that changes order is not covered.
- SpendBound.TurnsAreBounded: one runner with restarts, whose listings are read from the records as they are; a second replica reporting a stale counter can undo a count and is not modelled.
- Minting.MintOnce: counts the credentials whose key the runner kept; `Minting.MintsAccountedFor` bounds all of them by the passes that lost an answer or raised. Both need a state file that can be written and keys that are not empty; the second a listing that names each tenant once.
- Minting.MintsAccountedFor: as for `Minting.MintOnce`.
- Minting.MintOnceIff: the operator never configures the tenant, and a failed write never leaves a key nobody had.
- Minting.MintsCounted: as for `Minting.MintOnceIff`.
- Fleet.DispatcherLasts: needs every listing to answer; `Fleet.FailedListingDropsDispatcher` is what happens otherwise.
- Bundles.CacheIsSound: needs a clock that does not run backwards, and no failing forced refresh before the call; `Bundles.NeverAGhostIff` shows the second is exact. The disk holds whole members; the torn file of a corrupt one is not modelled.
- Isolation.Noninterference: visibility and row effects only; uniqueness and foreign-key errors, sequences, timing and statements that change the session's own settings are not modelled. A row is its tenant and its data, and a result is a function of what the session can see.
- Settlement.Conservation: money is integer cents and no column of the identities is NULL, as the models declare them.
- PayTerms.OverlapCheckExact: days are numbers from 0001-01-01 to 9999-12-31.
- PayloadAudit.StreamedAudit: JSON Schema validation is an opaque function of a schema and a payload; the printed lines of the other checks are not part of the failure list here.
- Adapter.ParseEvents: cutting `last_text` and each tool error short, keeping only five errors of each kind, and rendering results and errors that are not strings are left out, and numbers are exact. Which lines `json.loads` refuses, and what the trailing line of a text claims, are inputs.
- Slugs.SlugForIsSlug: starts from the lower-cased first label; stripping and lower-casing the domain belong to the Unicode library.
- Registrations.RowByRow: `registrable_domain` is an opaque function that may fail.
- ReviewMigration.RowByRow: `verification_sent_at`, `verified_at` and `tenant_id` are left out; no decision depends on them. The status, review and update columns are new to the table.
- The REST handlers and services other than the driver-state report, opening and closing a run, and clearing a park; permissions and audit rows in those four.
- HTTP, subprocesses, zip files, the file system, clocks, logging and signals: each is an outcome or a time handed in.
- Prompt text, the pi command line and environment, `filter_clause`, queue locations and configuration parsing; `InstalledBundle.skill_path` is a lookup.
- FleetRuns.ServeAll: every tenant named by a pass has a record layer of its own; parks lifted while no pass is under way count as lifted at the next look. The sleep, the stop flag and the idle announcement are left out, and the order in which the dictionary yields the tenants is arbitrary.
- Isolation.InterleavingDoesNotShow: statements run one after another, none under the platform flag.
- Several runner replicas writing driver state at the same time.
- The remaining checks of the integrity audit, which read one table or one sign at a time.
- Downgrades, column changes, other migrations, seeding and synchronisation scripts, and the frontend.
