# Verified model of mayu's governance core

mayu is an AI gateway: a control plane leases budget to data planes, each data plane admits and settles
requests against local budget and rate stores, policies are distributed as documents, every request leaves
a record in a hash-chained audit log, and OpenAI chat streams are re-rendered as Anthropic frames. This
project models those mechanisms in Dafny 4.11 and proves what they keep over every run.

`dafny verify dfyconfig.toml` checks the whole project. Nothing is taken as an axiom: hashing, JSON, calendars
and the outcomes of disk and network are parameters, and what a theorem needs of them is in its `requires`.

## Layout

| part | files |
|---|---|
| shared arithmetic and types | `Ints`, `Sums`, `Options`, `Periods` |
| lease protocol | `Ledger` (the heartbeat endpoint and its rules), `FleetBound`, `FleetWitness`, `Reservation`, `LeaseTable`, `LeaseProtocol`, `LeaseGate`, `LeaseClamp`, `Cadence`, `Redistribution`, `Syncer` |
| budgets | `BudgetStore`, `BudgetKeys`, `WindowSpend`, `InFlight` |
| rate limits and quotas | `RateLimiter`, `LimiterReference`, `LimiterStore` |
| admission and settlement | `Governance`, `Admission`, `AdmissionRuns`, `SharedBucket`, `Settlement`, `GovernorStore` |
| policies | `LimitFold`, `LimitMerge`, `PolicyLatch`, `Subjects` |
| audit log | `AuditScan`, `AuditChain`, `AuditFile`, `AuditWriter`, `AuditRuns` |
| chat streams | `ChatFrames`, `ChatStream`, `ChatConserve`, `ChatTools`, `ChatStops`, `ChatEnd`, `ChatReader` |
| prices and metrics | `Pricing`, `RejectionCounter` |

Objects whose methods update fields in the source are classes here (`Ledger.Server`, `LeaseTable.Leases`,
`Syncer.Syncer`, `BudgetStore.Memory`, `LimiterStore.Memory`, `GovernorStore.Governor`, `PolicyLatch.Store`,
`AuditWriter.Writer`, `ChatReader.Reader`). Every method is proved equal to a step function on values, and
the theorems about runs are stated over those step functions. Where the source holds a mutex around a method,
that method is one atomic step here. The governor holds none: its requests interleave between single store
operations, and `InFlight`, `AdmissionRuns` and `Settlement` are stated for every such interleaving. Go's int64 is written out
(`Ints.Wrap64`, saturation, range checks) wherever it can be seen.

## Main results

* What a fleet spends of a budget, and what it may still spend, exceeds the limit by at most one grant for every
  data plane but one, plus the amount by which reports overran allowances, plus the spend that prunes took off
  the books (`FleetBound.FleetOvershoot`). Every number of planes attains it for every grant up to the limit,
  with nothing overrun and nothing forgotten (`FleetWitness.CeilingIsAttained`). The overrun term is needed
  (`FleetWitness.ExhaustedPlaneCreeps`) and so is the forgotten one (`FleetWitness.PrunedSpendIsPromisedAgain`);
  it is zero when no plane with spend is pruned (`FleetBound.FleetOvershootOnRecord`).
* In honest fleets the spend on record and the live reservations never exceed the limit, through lost answers,
  lapsed leases, rollovers and prunes, and the spend of all planes ever heard passes it only by what prunes
  forgot (`Reservation.NoOvercommit`). For every fleet, honest or not, the ledger holds back exactly the unspent part
  of the lease last issued to a plane until it expires (`LeaseProtocol.LastLeaseIsHeldBack`), so traffic let
  through under a plane's latest hard lease is backed (`LeaseProtocol.LatestAnswerIsHeldBack`); in honest fleets
  that holds for older answers too (`LeaseProtocol.UnblockedMeansReserved`).
* An answered lease and the ledger expire together (`LeaseGate.AnswerExpiresWithLedger`), and until a plane's next
  heartbeat its gate refuses a team exactly when the ledger has nothing for it (`LeaseGate.GateMirrorsLedger`).
* Between a refusal or an unusable answer of the authority and the next success, no reader is told that governed
  requests may be served (`Syncer.RunAll`).
* Policy edits that keep a rule's name and period neither replenish a budget nor use it up
  (`Redistribution.SpendSurvivesEdits`), and only those keep what was spent (`Redistribution.EditKeepsSpendIff`).
* The bounded, sweeping budget store and limiter answer like unbounded ones
  (`BudgetStore.StoreRefinesReference`, `LimiterReference.LimiterRefinesReference`), the in-flight overshoot
  is bounded (`InFlight.OvershootIsInFlight`) and so is what a token bucket admits
  (`RateLimiter.AdmittedCostIsBounded`).
* However admissions and settlements interleave, at most the burst and the refill of an interval are admitted for a
  team or a key, in requests and in tokens (`AdmissionRuns.TeamRateHolds`, `AdmissionRuns.TeamTokensHold` and
  their key counterparts), and a verdict means what the policies' numbers say (`Admission.TeamVerdict`,
  `Admission.AdmittedWithinLimits`, `Admission.DeniedOverLimit`).
* Each counter is the sum of what was settled for exactly its subject, for every interleaving
  (`Settlement.CounterIsSubjectSum`).
* The limit folds mean "least limit, hard if a rule attaining it is hard", in any order
  (`LimitFold.TeamFoldMeansLeast`, `LimitMerge.UserLookupIsOneFold`).
* A rejected mandatory document latches its subjects until exactly one valid document of its name arrives
  (`PolicyLatch.RefusedIffHeld`, `PolicyLatch.NeverSilentlyReplaced`).
* An audit anchor binds history, or one of the writer's lines and a line of the file collide
  (`AuditChain.AnchorBindsHistory`). Complete files verify with the writers' own heads
  (`AuditRuns.LivesVerify`), and refused records stay replayable (`AuditWriter.RefusedAreReplayed`,
  `AuditWriter.RefusedReplaysIff`).
* Every translated stream is well formed and loses nothing (`ChatStream.StreamIsWellFormed`,
  `ChatConserve.TextIsConserved` and its siblings). For a stream of one choice, tools stay in blocks of their own if
  and only if upstream keeps a discipline read off its chunks alone (`ChatTools.ToolsInBlocksIffDisciplined`,
  `ChatTools.TextAndToolsApart`), and every message says why it stopped (`ChatStops.StopsAreDue`).
* A reservation dominates every settlement it covers, and every settlement is within 2.5 micro-dollars of each count
  at its own rate (`Pricing.ReservationDominates`, `Pricing.CostUSDMicrosChecked`, `Pricing.CostUSDMicros`).

## Where the code does not keep a tempting promise

Each is stated with a concrete input and, where there is one, the exact condition.

* The bound in api/v1alpha1/types.go:128-134 does not survive a prune inside a window: a plane silent for a day
  takes its spend off the books, and the same money is granted again. Two honest planes can so spend the whole
  limit each (`FleetWitness.PrunedSpendIsPromisedAgain`). The ledger knows all that was spent, at every moment of
  a run, if and only if no plane with spend is ever pruned (`FleetBound.OnRecordIff`).
* A lease that can outlive the 24-hour prune horizon may be forgotten while unexpired: "outstanding exactly
  while unexpired" holds in every run if and only if three renewal intervals fit into the horizon, for being
  counted live (`LeaseProtocol.OutstandingIffUnexpired`) and for the amount held back
  (`LeaseProtocol.HeldBackIffUnexpired`); `LeaseProtocol.PrunedWhileUnexpired` is the run.
* A hard cap does not stop a plane once the fleet has reached it. Right after a renewal a plane is refused if
  and only if the cap is hard and either its own spend alone is past the limit, or it has spent nothing and there
  was nothing left to grant (`LeaseClamp.RefusedAfterRenewalIff`, and for every lease of an answer
  `LeaseClamp.AnswerRefusesIff`). So beside a plane that used up the limit another one is let through once more
  after every renewal, until it alone is past the limit (`FleetWitness.ExhaustedPlaneCreeps`).
* A team named like a key shares the key's bucket. Its request rate holds under every policy and in every run if and
  only if its name does not begin with `key:` (`SharedBucket.NameDecides`, `SharedBucket.Overruns`).
* A negative true-up on a reclaimed bucket is lost. A correction keeps the limiter in step with an unbounded
  one exactly when its bucket is still there, never was, or has a projected balance that covers it
  (`LimiterReference.AdjustAgreesIff`); otherwise the next request for the whole burst shows the difference
  (`LimiterReference.LostCorrectionShows`, and `LimiterReference.LostDebit` from an empty store).
* Half-even rounding of a negative product moves away from the nearest value exactly when the magnitude
  rounds up (`Pricing.NearestExactly`, `Pricing.NegativeRoundsUp`): a negative count reported upstream can be
  charged (`Pricing.NegativeCountIsCharged`).
* The checked price lookup finds an entry for the empty model name where the unchecked one does not, and
  they differ in no other case (`Pricing.LookupsAgreeExactly`, `Pricing.UnknownModelIsPriced`).
* A larger hard cap beside a smaller soft one leaves the team without a hard cap (`LimitFold.LargerHardCapIsLost`).
* After a failed append the published audit count lags for good; head and count match their position exactly
  when no append failed before one that succeeded, or two of the run's lines collide
  (`AuditWriter.HeadIsPositionedIff`, `AuditWriter.LaggingHead`).
* A torn append fuses with the next record; a refused record is replayed as its own exactly when the log ended
  at a line boundary (`AuditWriter.RefusedReplaysIff`), which only a torn append right before it prevents
  (`AuditWriter.OnlyTornMisaligns`, `AuditWriter.TornThenRefused`).
* A log inherited from an earlier process survives a run exactly when no record is delivered and truncated
  before the first refused one (`AuditWriter.InheritedLogIsKeptIff`, `AuditWriter.InheritedLogIsCut`).
* A second run under the same instance, right after the first, is reported as tampering
  (`AuditFile.RestartUnderSameInstanceBreaks`), and runs chain exactly when neighbours differ
  (`AuditFile.GoodIffAlternates`).
* Tool arguments may arrive outside every block; they stay inside exactly when upstream is tidy
  (`ChatStream.ToolsInBlocksIffTidy`, `ChatStream.StrayArguments`).
* With a choice other than the first, text and a tool can share a block although upstream is disciplined
  (`ChatTools.SecondChoiceCollides`); with one choice they cannot (`ChatTools.ToolsInBlocksIffDisciplined`).
* Frames can follow a message_stop; none does exactly when every line after the first end marker is silent
  (`ChatEnd.StopIsLastIff`, `ChatEnd.StopTwice`).
* Two missed heartbeats are not tolerated in general, although internal/controlplane/controlplane.go:486-487 says
  so: for the rule that sets the pace, the attempt after two misses always comes before its lease expires if and
  only if three renewals last at least 179 seconds, for whole seconds a renewal of a minute
  (`Cadence.TwoMissesToleratedIff`); the default of ten seconds fails (`Cadence.DefaultRenewalLapses`).

## Model

| member | source | states |
|---|---|---|
| `Ledger.SaturatedStep` | internal/controlplane/controlplane.go:122-127 | adding one more entry with the saturating sum yields the clamped true total, whichever key comes next |
| `Ledger.SumSpent` | internal/controlplane/controlplane.go:101-104 | the scan returns min(true sum, MaxInt64), or MaxInt64 if any entry is negative, for every iteration order |
| `Ledger.SumReserved` | internal/controlplane/controlplane.go:105-116 | the same for the live, granted-but-unreported amounts of all planes but one |
| `Ledger.Totals` | internal/controlplane/controlplane.go:101-118 | both totals of a row |
| `Ledger.GrantFits` | internal/controlplane/controlplane.go:461-483 | a grant that adds anything keeps spend, reservations and itself within the limit, one smaller than the rule's grant brings them up to it, and the new allowance is an int64 |
| `Ledger.BeatKeepsValid` | internal/controlplane/controlplane.go:414-493 | a heartbeat keeps every amount of a row in int64 range and changes only its spend and allowance maps |
| `Ledger.BeatComposes` | internal/controlplane/controlplane.go:414-493 | absorb, prune and grant over all rows are together one per-row heartbeat |
| `Ledger.LeasesExtend` | internal/controlplane/controlplane.go:484-492 | granting one more rule adds its lease and disturbs none given before |
| `Ledger.RebuiltKeepsValid` | internal/controlplane/controlplane.go:193-262 | a new rule set keeps every amount of the ledger in range |
| `Ledger.Server.constructor` | internal/controlplane/controlplane.go:152-168 | a server starts without rules and with nobody registered |
| `Ledger.Server.ApplyWire` | internal/controlplane/controlplane.go:193-262 | the new ledger has exactly the leasable rules of the set, the later one of a name, with spend carried over for an unchanged period and allowances unless routing-only |
| `Ledger.Server.HandleSync` | internal/controlplane/controlplane.go:364-493 | a nameless or negative report is refused and changes nothing; otherwise rows and clock are the heartbeat of the old ones and each leasable rule is leased exactly once |
| `Ledger.Server.Absorb` | internal/controlplane/controlplane.go:414-438 | every report is booked on its own rule and period, in order |
| `Ledger.ReportIsBooked` | internal/controlplane/controlplane.go:414-438 | a report sets the sender's spend on the row of its rule if the row has the period it names, the month if it names none, and changes no other spend |
| `Ledger.Server.Prune` | internal/controlplane/controlplane.go:439-451 | exactly the planes silent for longer than a day lose registration and entries |
| `Ledger.Server.Grant` | internal/controlplane/controlplane.go:452-493 | every leasable row extends the sender's allowance, and the leases are exactly those rows' |
| `Ledger.Server.GrantRow` | internal/controlplane/controlplane.go:461-483 | one row's new allowance, computed with saturating totals |
| `FleetBound.AbsorbClaim` | internal/controlplane/controlplane.go:414-438 | within a window, a plane's reports move the fleet's total claim by exactly their overrun |
| `FleetBound.StepKeepsInv` | internal/controlplane/controlplane.go:414-493 | a heartbeat within a window, prunes included, keeps claims within ceiling plus overrun plus forgotten spend |
| `FleetBound.FleetOvershoot` | api/v1alpha1/types.go:128-134 | in every run within one window, prunes included, what all planes ever heard spent and may still spend totals at most limit + grant × (planes − 1) + overrun + spend forgotten by prunes |
| `FleetBound.RunKeepsBooks` | internal/controlplane/controlplane.go:414-451 | in every run, rollovers included, nothing is on the books that no plane reported, and what the books lack is at most what prunes took off them |
| `FleetBound.StepOnRecordIff` | internal/controlplane/controlplane.go:439-451 | a heartbeat keeps the books complete if and only if it prunes no plane with spend |
| `FleetBound.OnRecordIff` | internal/controlplane/controlplane.go:439-451 | the ledger holds every plane's last report at every moment of a run if and only if no plane with spend is ever stale at a heartbeat |
| `FleetBound.FleetOvershootOnRecord` | api/v1alpha1/types.go:128-134 | in such runs the documented bound holds with the overrun alone |
| `FleetWitness.CeilingIsAttained` | internal/controlplane/controlplane.go:461-493 | for every n ≥ 1 and every grant up to the limit, an honest run of n planes reaches the bound with no overrun and nothing forgotten |
| `FleetWitness.PrunedSpendIsPromisedAgain` | internal/controlplane/controlplane.go:439-451 | for every grant up to the limit, an honest run of two planes in one window that spends the limit twice |
| `FleetWitness.ExhaustedPlaneCreeps` | internal/controlplane/controlplane.go:472-483 | for every request cost c and every k, a two-plane fleet spends limit + c × k in one window, and the next request is refused, by gate or clamped limit, only if the cap is hard and c × k alone is past the limit |
| `Reservation.AbsorbHonest` | internal/controlplane/controlplane.go:414-437 | a report within a live allowance, or a falling one, never raises spend plus reservations |
| `Reservation.GrantCommitted` | internal/controlplane/controlplane.go:461-483 | granting re-reserves the sender's share within the limit |
| `Reservation.NoOvercommit` | internal/controlplane/controlplane.go:461-493 | in every honest run, at every later time, recorded spend plus live reservations is at most the limit, and all planes' last reports plus reservations at most the limit plus what prunes forgot, which is zero if no plane with spend is pruned |
| `LeaseTable.Leases.Set` | internal/proxy/sync.go:102-134 | the new table holds, per team and window, the merge of the grants that concern it and nothing else |
| `LeaseTable.Leases.Blocked` | internal/proxy/sync.go:74-96 | a team is refused exactly when some window holds a hard lease that has expired or has no allowance |
| `LeaseTable.InstallMerges` | internal/proxy/sync.go:102-134 | installing one by one yields the least allowance, the earliest expiry and hard if any is hard |
| `LeaseTable.MergeIsOrderFree` | internal/proxy/sync.go:102-134 | the merge depends on which grants there are, not on their order |
| `LeaseProtocol.RenewalNeverShrinks` | internal/controlplane/controlplane.go:461-483 | renewing under honest growth never lowers the sender's allowance, so a lost answer does no harm |
| `LeaseProtocol.UnexpiredIsReserved` | internal/controlplane/controlplane.go:105-116 | in honest fleets, until any received lease expires its holder counts as live, the ledger keeps at least its allowance and holds back at least its unspent part |
| `LeaseProtocol.LiveUntilExpiry` | internal/controlplane/controlplane.go:484-492 | a holder is counted live exactly until the expiry it was told, if leases fit into the prune horizon |
| `LeaseProtocol.LastLeaseIsHeldBack` | internal/controlplane/controlplane.go:105-116 | for every fleet, what is held back for a plane is the unspent part of its latest lease until that expires and nothing afterwards, and its entries stay as they were answered |
| `LeaseProtocol.HeldBackIffUnexpired` | internal/controlplane/controlplane.go:439-492 | that amount, by the expiry of the issued lease itself, in every run and at every time, if and only if 3 × renewal ≤ 24 h |
| `LeaseProtocol.PrunedWhileUnexpired` | internal/controlplane/controlplane.go:439-451 | otherwise a two-plane run prunes an unexpired holder |
| `LeaseProtocol.OutstandingIffUnexpired` | internal/controlplane/controlplane.go:439-492 | "counted live exactly while unexpired" in every run holds if and only if 3 × renewal ≤ 24 h |
| `LeaseProtocol.ServeIsRowwise` | internal/controlplane/controlplane.go:364-493 | under any heartbeats each rule lives exactly its own single-rule run |
| `LeaseProtocol.ServeKeepsValid` | internal/controlplane/controlplane.go:364-493 | every server state reachable by accepted heartbeats has rows in range |
| `LeaseProtocol.LatestAnswerIsHeldBack` | internal/proxy/sync.go:74-134 | for every fleet, when the gate lets a team with a hard lease through, every grant of the plane's latest answer in that window is live, unchanged in the ledger, and its unspent part is held back in full |
| `LeaseProtocol.UnblockedMeansReserved` | internal/proxy/sync.go:74-134 | in honest fleets the same for any received answer, later ones lost: live, kept, and at least its unspent part held back |
| `LeaseGate.RuleIsAnswered` | internal/controlplane/controlplane.go:452-493 | every leasable rule has a lease in the answer, for its own team, window and cap, with the allowance on its row and three of its renewals |
| `LeaseGate.AnswerIsOfRule` | internal/controlplane/controlplane.go:452-493 | and every lease of the answer is that of a leasable rule |
| `LeaseGate.AnswerExpiresWithLedger` | internal/controlplane/controlplane.go:484-492 | after any accepted heartbeat, until the plane's next one, each lease is unexpired exactly while the ledger counts the plane live, and what is held back is the lease's allowance less the spend on record, or nothing once it has expired |
| `LeaseGate.TableReachesRules` | internal/proxy/sync.go:102-134 | the table set from an answer has an entry for exactly the teams and windows of the leasable rules |
| `LeaseGate.GateMirrorsLedger` | internal/proxy/sync.go:74-96 | the gate refuses a team if and only if in some window one of its leasable rules is hard and, for one of them, the ledger counts the plane no longer live or allows it nothing |
| `LeaseClamp.NoHeadroomIff` | internal/controlplane/controlplane.go:461-483 | nothing is left to grant exactly when the rule grants nothing or spend and live reservations reach the limit |
| `LeaseClamp.RefusedAfterRenewalIff` | cmd/mayu/gateway.go:536-557 | from a renewal to the expiry of its lease, the sender is refused, by the lease gate or by the clamped local limit, if and only if the cap is hard and its own spend is past the limit, or is zero with nothing left to grant |
| `LeaseClamp.AnswerRefusesIff` | internal/controlplane/controlplane.go:452-493 | the same for every lease of the answer to any accepted heartbeat |
| `Cadence.LatestIsLatest` | internal/proxy/sync.go:250-279 | however the backoff is jittered, the attempt after two misses comes no later than the unjittered one and not before two floors have passed |
| `Cadence.TwoMissesToleratedIff` | internal/controlplane/controlplane.go:484-492 | for the rule with the shortest renewal, that attempt always comes within the lease if and only if three renewals last at least 179 seconds |
| `Cadence.DefaultRenewalLapses` | internal/policy/policy.go:34-47 | with the default renewal of ten seconds it can come after seventy |
| `Redistribution.DriveKeepsValid` | internal/controlplane/controlplane.go:193-493 | every server state reachable by heartbeats and edits has rows in range |
| `Redistribution.SpendSurvivesEdits` | internal/controlplane/controlplane.go:250-257 | after any mixture of heartbeats and edits that keep a rule's name and period, its recorded spend is what the heartbeats alone would leave |
| `Redistribution.EditKeepsSpendIff` | internal/controlplane/controlplane.go:245-257 | one edit keeps a rule's recorded spend if and only if the last rule of its name has the old period; otherwise the rule is gone or starts from nothing |
| `Redistribution.EditBindsNextGrant` | internal/controlplane/controlplane.go:229-262 | the lease of the next heartbeat has the edited rule's team, window, cap and renewal, and adds as much as the edited grant and limit allow |
| `Redistribution.EditKeepsReservations` | internal/controlplane/controlplane.go:245-257 | an edit that keeps period and renewal of a leasable rule keeps what is held back for every plane; one that ends either holds back nothing |
| `Syncer.Syncer.Validate` | internal/proxy/sync.go:362-367 | an answer is acted on exactly when its bundle is complete, of the answered generation and without leases |
| `Syncer.AcceptableIsDetermined` | internal/proxy/sync.go:362-367 | acceptable answers with the same documents and time have the same generation, under both names, the same budgets, the one protocol and no leases |
| `Syncer.Syncer.Install` | internal/proxy/sync.go:368-405 | constraints, then policies, then readiness; success exactly when the authority took the bundle and no document was rejected |
| `Syncer.Syncer.SyncOnce` | internal/proxy/sync.go:282-412 | one heartbeat keeps the readiness invariant after every single store, and succeeds exactly on a validated, applied bundle whose documents the store all accepts; a 401, 403, 409 or 426, and every decoded answer that does not succeed, withdraws readiness at once and throughout; any other failure changes nothing |
| `Syncer.RunAll` | internal/proxy/sync.go:282-412 | at every intermediate store of any run, ready implies the store's snapshot generation is the one the authority applied and none of the documents behind it was rejected; from a withdrawing exchange to the next success no reader, with one look or with two loads, is told ready; readiness is withdrawn at the end exactly for such a reason |
| `Syncer.TornReadIsSound` | internal/proxy/sync.go:176-194 | two separate loads that together say ready straddle a moment at which that held |
| `Syncer.GovernanceReady` | internal/proxy/sync.go:176-194 | ready exactly when not withdrawn, synced once, and not longer ago than the age allowed; with the same guarantee |
| `BudgetStore.TouchBounded` | internal/budget/budget.go:244-279 | the map never outgrows its capacity |
| `BudgetStore.TouchRefusal` | internal/budget/budget.go:244-279 | a key is refused exactly when it has no entry and live counters fill the map, even if this call's sweep deletes it |
| `BudgetStore.TouchAgrees` | internal/budget/budget.go:244-279 | finding or opening a counter changes no other open counter and opens the reference's own |
| `BudgetStore.StepAgrees` | internal/budget/budget.go:175-233 | every operation keeps store and reference in agreement and answers alike unless refused |
| `BudgetStore.StoreRefinesReference` | internal/budget/budget.go:131-279 | after any run the answer is the unbounded store's, except refused checks; open counters are equal; capacity holds |
| `BudgetStore.Memory.SweepExpired` | internal/budget/budget.go:273-279 | deletes exactly the counters whose window has ended |
| `BudgetStore.Memory.Current` | internal/budget/budget.go:244-269 | the object's lookup is the value-level one |
| `BudgetStore.Memory.CheckLimit` | internal/budget/budget.go:175-201 | verdict and new state of a check, the unlimited case included |
| `BudgetStore.Memory.DebitSpend` | internal/budget/budget.go:203-209 | state after a debit, with int64 wrap-around |
| `BudgetStore.Memory.SpentOf` | internal/budget/budget.go:211-219 | answer and state of reading a counter |
| `BudgetStore.Memory.ResetTime` | internal/budget/budget.go:225-233 | answer and state of reading a window's end |
| `BudgetKeys.KeyInjective` | internal/budget/keys.go:28-30 | with colon-free tags a counter name determines scope, subject and tag |
| `BudgetKeys.UserIdInjective` | internal/governance/governance.go:288-288 | with slash-free teams a user id determines team and user |
| `BudgetKeys.CalendarTags` | internal/budget/budget.go:111-120 | the calendar tags are colon-free and different |
| `WindowSpend.OpAt` | internal/budget/budget.go:175-233 | what one operation does to one key's visible spend |
| `WindowSpend.CounterIsWindowSum` | internal/budget/budget.go:203-279 | over every run a counter reads, for any reader, as the sum of the accepted debits to it in the current window |
| `WindowSpend.CounterIsCalendarSum` | internal/budget/budget.go:203-279 | for a daily counter those of the calendar day, for a monthly one those of the calendar month, in its zone |
| `WindowSpend.CheckReadsView` | internal/budget/budget.go:175-201 | a check compares visible spend plus estimate with the limit, and refuses for want of room only an unknown key of a full store |
| `InFlight.StepKeepsInv` | internal/governance/governance.go:361-399 | each admission or settlement keeps spend, with every request in flight at the dearest price, within the bound |
| `InFlight.OvershootIsInFlight` | internal/governance/governance.go:648-651 | for every interleaving, spend is at most limit + (most in flight) × (dearest cost) |
| `RateLimiter.SweepKeepsLevel` | internal/limiter/limiter.go:151-166 | sweeping leaves every key's projected balance as it was |
| `RateLimiter.StepEffects` | internal/limiter/limiter.go:168-286 | what each operation can do to one key's balance, sweeps and refusals included |
| `RateLimiter.AdmittedCostIsBounded` | internal/limiter/limiter.go:120-197 | cost admitted in an interval is at most burst + refill + positive adjustments |
| `RateLimiter.LevelRefills` | internal/limiter/limiter.go:168-197 | a bucket refills by exactly its rate per minute, up to its burst |
| `RateLimiter.AllowedIff` | internal/limiter/limiter.go:168-197 | a charge passes if and only if there is room for the bucket and its balance covers the cost |
| `RateLimiter.UsedMeans` | internal/limiter/limiter.go:242-265 | the tokens reported in use are the distance from a full bucket to the nearest token |
| `RateLimiter.QuotaEffects` | internal/limiter/limiter.go:199-223 | a debit adds its tokens to the quota's open window, nothing else changes a reading, and a new window lasts as long as it should |
| `RateLimiter.QuotaAllowsIff` | internal/limiter/limiter.go:199-213 | a quota check passes if and only if the estimate still fits the limit and there is room |
| `LimiterReference.ReadyRefusal` | internal/limiter/limiter.go:168-185 | a bucket is refused exactly when the key has none and no room can be made, and size stays within capacity |
| `LimiterReference.CurrentRefusal` | internal/limiter/limiter.go:291-306 | the same for quota windows, which survive their own call's sweep |
| `LimiterReference.StepAgrees` | internal/limiter/limiter.go:168-286 | each operation keeps limiter and reference in agreement and answers alike unless refused |
| `LimiterReference.StepBounded` | internal/limiter/limiter.go:120-130 | capacity holds, and only want of room refuses |
| `LimiterReference.AdjustAgreesIff` | internal/limiter/limiter.go:275-286 | a correction, of either sign, keeps limiter and reference in agreement if and only if it is not lost |
| `LimiterReference.CreditIsNeverLost` | internal/limiter/limiter.go:275-286 | a nonnegative correction is never lost |
| `LimiterReference.LimiterRefinesReference` | internal/limiter/limiter.go:120-306 | after any run with fixed limits in which no correction is lost the limiter answers as an unbounded, never-sweeping one |
| `LimiterReference.LostCorrectionShows` | internal/limiter/limiter.go:278-281 | after any such run a lost correction makes the next request for the whole burst pass, if there is room for it, where the reference denies it |
| `LimiterReference.LostDebit` | internal/limiter/limiter.go:278-281 | a run from an empty store that loses a debit and answers differently |
| `LimiterStore.Memory.SweepReclaimable` | internal/limiter/limiter.go:151-166 | the two deletion loops keep exactly the unreclaimable entries |
| `LimiterStore.Memory.TickSweep` | internal/limiter/limiter.go:133-139 | the amortised sweep |
| `LimiterStore.Memory.AdmitEntry` | internal/limiter/limiter.go:120-130 | room for a new entry, or a counted refusal |
| `LimiterStore.Memory.Allow` | internal/limiter/limiter.go:168-197 | answer and state of charging a bucket |
| `LimiterStore.Memory.Adjust` | internal/limiter/limiter.go:275-286 | state after a true-up: capped above, not floored below |
| `LimiterStore.Memory.Used` | internal/limiter/limiter.go:242-265 | the rounded tokens in use, read-only |
| `LimiterStore.Memory.CurrentWindow` | internal/limiter/limiter.go:291-306 | the live quota window, rolled or admitted |
| `LimiterStore.Memory.WithinQuota` | internal/limiter/limiter.go:199-213 | verdict and state of a quota check |
| `LimiterStore.Memory.DebitUsage` | internal/limiter/limiter.go:215-223 | state after a quota debit |
| `Governance.CheckVerdict` | internal/governance/governance.go:318-320 | a blocking budget over its limit denies, a denial means that or a full store, and no reading changes |
| `Governance.ScopeVerdict` | internal/governance/governance.go:361-399 | both windows of a scope: over in either denies, and a denial means over in one or a full store |
| `Governance.DenialResetsSoonest` | internal/governance/governance.go:366-398 | a denial reports the end of one of the two windows, and no window over its limit ends sooner |
| `Governance.VerdictMeans` | internal/governance/governance.go:328-476 | an admitted request is not lease-blocked and is within every blocking budget of its team, key and user; a budget denial names a scope that is exceeded or meets a full store; with room, requests within all budgets get no budget denial; no open counter changes |
| `Governance.KeysDiffer` | internal/governance/governance.go:361-399 | two counters share a name if and only if scope, subject and window agree |
| `Admission.TeamVerdict` | internal/governance/governance.go:343-361 | an admitted request got a yes for its team's request rate, token rate and blocking quota, each in the state it was asked; a 429 that names one of them is given exactly when that one is the first to say no |
| `Admission.KeyVerdict` | internal/governance/governance.go:401-407 | the same for the key's two rates, asked after the team's; no 429 names anything else |
| `Admission.ClosedGateDenies` | internal/governance/governance.go:334-342 | a closed lease gate denies with 402 before anything is charged |
| `Admission.AdmittedWithinLimits` | internal/governance/governance.go:328-476 | on the numbers of the policies in force: an admitted request has at most its limit on record in every blocking budget of team, key and user, for the month and for the day |
| `Admission.DeniedOverLimit` | internal/governance/governance.go:328-476 | a budget denial names a scope with a blocking budget over its limit, unless the store has run full |
| `AdmissionRuns.AdmissionIsAsking` | internal/governance/governance.go:328-476 | an uninterrupted admission is a run of single gates, and is admitted exactly when that run admits it |
| `AdmissionRuns.SettlementIsBooking` | internal/governance/governance.go:622-642 | an uninterrupted settlement is its single bookings |
| `AdmissionRuns.TeamRateHolds` | internal/governance/governance.go:343-347 | for every interleaving, the requests admitted for a team between two times are at most burst + rate × minutes |
| `AdmissionRuns.KeyRateHolds` | internal/governance/governance.go:402-404 | the same for a key |
| `AdmissionRuns.TeamTokensHold` | internal/governance/governance.go:348-352 | the tokens estimated for a team's admitted requests are at most a minute's worth, the refill, and what settlements gave back |
| `AdmissionRuns.KeyTokensHold` | internal/governance/governance.go:405-407 | the same for a key |
| `AdmissionRuns.SettlementTruesUp` | internal/governance/governance.go:628-642 | settling moves the team's token balance by exactly estimate less use, up to its burst |
| `AdmissionRuns.NamesDiffer` | internal/governance/governance.go:345-405 | bucket names coincide only for equal names, or for a team named like a key |
| `SharedBucket.NameDecides` | internal/governance/governance.go:345-402 | a team's request rate holds under every policy and in every run if and only if its name does not begin with `key:` |
| `SharedBucket.Overruns` | internal/governance/governance.go:345-402 | otherwise a three-request run passes it |
| `GovernorStore.Governor.Admit` | internal/governance/governance.go:328-476 | the running admission changes both stores and answers as the value-level one, in the source's gate order |
| `GovernorStore.Governor.CheckOneBudget` | internal/governance/governance.go:376-384 | one window's check against the store |
| `GovernorStore.Governor.CheckBothWindows` | internal/governance/governance.go:361-399 | a scope's two windows, monthly first |
| `GovernorStore.Governor.Charge` | internal/governance/governance.go:648-651 | one limited window of one scope is debited |
| `GovernorStore.Governor.ChargeScope` | internal/governance/governance.go:648-707 | both windows of one scope are debited |
| `GovernorStore.Governor.SettleRequest` | internal/governance/governance.go:604-735 | settling runs exactly the listed debits and true-ups on both stores |
| `Settlement.SettleReaches` | internal/governance/governance.go:648-707 | a settlement adds its cost to a counter exactly when scope, subject and window match and that budget is limited, and once |
| `Settlement.SpreadIsSettle` | internal/governance/governance.go:648-707 | the debits of a settlement spread over time are the governor's own, at one time |
| `Settlement.HistorySum` | internal/governance/governance.go:648-707 | the debits of a history to a counter are the costs settled for its subject |
| `Settlement.CounterIsSubjectSum` | internal/governance/governance.go:604-735 | for every interleaving of the single operations, below capacity each counter equals the sum of costs settled for exactly that subject in that window |
| `Settlement.DebitsOfReordered` | internal/governance/governance.go:648-707 | what a list of operations debits does not depend on their order |
| `Settlement.UserSubjectsDiffer` | internal/governance/governance.go:288-288 | user subjects share counters if and only if team and user agree |
| `LimitFold.NarrowIsUnion` | internal/policy/store.go:602-626 | narrowing two meets is the meet of all their caps |
| `LimitFold.NarrowLaws` | internal/policy/store.go:602-626 | narrow is commutative, associative and idempotent, with the empty view as identity |
| `LimitFold.TeamFoldMeansLeast` | internal/policy/store.go:492-568 | a team's limit in a window is the least contributing one, hard if and only if some rule attaining it is |
| `LimitFold.TeamFoldIsOrderFree` | internal/policy/store.go:492-568 | it is the same for every order of the same policies |
| `LimitFold.TeamFieldIsLeast` | internal/policy/store.go:570-581 | rates and routing-only budgets fold to the least positive request |
| `LimitFold.LargerHardCapIsLost` | internal/policy/store.go:549-559 | two policies, in either order, whose larger hard cap leaves the team with a soft limit only |
| `LimitFold.BudgetCapsIff` | internal/policy/routing_budget.go:9-32 | a finite team budget caps its window if and only if it is hard or no strict tier of its policy refers to it |
| `LimitFold.HardBudgetBinds` | internal/policy/store.go:504-559 | a hard budget always leaves its team with a limit no larger than it |
| `LimitMerge.FoldPolicy` | internal/policy/store.go:504-562 | the rule loop of one team policy |
| `LimitMerge.MergeTeamLimits` | internal/policy/store.go:492-568 | the table holds the fold of every team some rule contributes to, and no other team |
| `LimitMerge.FoldUserPolicy` | internal/policy/store.go:651-678 | the rule loop of one user policy |
| `LimitMerge.MergeUserLimits` | internal/policy/store.go:651-678 | the table holds the fold of every (team, user) with a budget rule, and no other |
| `LimitMerge.UserMeets` | internal/policy/store.go:631-678 | each user entry is the meet of its rules' caps |
| `LimitMerge.UserLookupIsOneFold` | internal/policy/store.go:413-429 | the two-entry lookup equals one fold over all matching rules, and finds nothing exactly when neither entry exists |
| `PolicyLatch.HasMandatoryRouting` | internal/policy/store.go:730-737 | true exactly when some rule is a token quota, a sensitive-data rule or a strict tier |
| `PolicyLatch.Remember` | internal/policy/store.go:161-195 | a rejection adds exactly the subjects of the document, of the policies it would have replaced and of earlier same-name documents that carry a mandatory rule |
| `PolicyLatch.Store.ApplyWire` | internal/policy/store.go:146-237 | accepts the first valid document of each name, reports the rest, and leaves pending exactly what this distribution latches or an earlier one latched and this one does not clear |
| `PolicyLatch.Store.RoutingSnapshot` | internal/policy/store.go:702-728 | refuses exactly the identities a pending subject matches, otherwise returns the matching routing rules in order, and names the generation it answers for |
| `PolicyLatch.PendingIffHeld` | internal/policy/store.go:146-237 | over every run a subject is pending exactly when some distribution latched it and none since cleared it |
| `PolicyLatch.RefusedIffHeld` | internal/policy/store.go:702-710 | an identity is refused exactly while a subject matching it is held |
| `PolicyLatch.NeverSilentlyReplaced` | internal/policy/store.go:146-237 | once a distribution mentions a mandatory policy's name, it holds exactly one valid document of it or the subject is refused until such a distribution comes, dropped names included |
| `PolicyLatch.ApplyAll` | internal/policy/store.go:133-237 | a store fed a whole history holds what the history says |
| `Subjects.SelectorsAgree` | internal/policy/store.go:457-465 | a subject matches an identity for routing exactly when it does for limits |
| `Subjects.RoutingRulesAre` | internal/policy/store.go:719-723 | of a policy's rules exactly the sensitive-data and context rules are kept, each as often as it was there |
| `Subjects.DistributionHandsOut` | internal/policy/store.go:702-728 | after a distribution routing hands out exactly what the accepted documents that match say |
| `AuditScan.ScanUnlines` | internal/audit/verify.go:39-50 | scanning a written file returns its lines, up to the first one too long for the buffer |
| `AuditScan.ScanConcat` | internal/audit/wal.go:46-58 | content appended at a line boundary is read after the old content |
| `AuditScan.AppendReadsBackIff` | internal/audit/wal.go:27-37 | an appended record is read back as its own if and only if the content before it ended at a line boundary |
| `AuditScan.AppendReadsThroughIff` | internal/audit/wal.go:27-59 | the same with any later content after it |
| `AuditChain.TipDetermines` | internal/audit/writer.go:82-92 | chains of equal length and equal head are equal, or two of their lines at the same place collide |
| `AuditChain.TipsDiffer` | internal/audit/writer.go:82-92 | no two positions of a chain have the same head, or two of its lines collide |
| `AuditChain.Verify` | internal/audit/verify.go:38-78 | the one-pass check reports the first line that is unreadable or does not carry the hash its place calls for, else success with each instance's last head and segment length, else the read error |
| `AuditChain.HeadAtCount` | internal/audit/verify.go:88-124 | returns the head at the first intact record with that number in a segment of the instance, finds it whenever there is one, and reports a read error only on an intact prefix |
| `AuditChain.SegmentIsLinked` | internal/audit/verify.go:53-69 | in an intact prefix every segment is a chain from genesis |
| `AuditChain.AnchorBindsHistory` | internal/audit/verify.go:80-124 | any file showing the anchored hash at the anchored count starts that segment with exactly the writer's records, or a line of the file and the writer's line at its place collide |
| `AuditFile.GoodIffAlternates` | internal/audit/verify.go:53-64 | written runs chain in one file if and only if no two neighbours share an instance |
| `AuditFile.FileVerifies` | internal/audit/verify.go:38-78 | a file of runs with distinct instances verifies with every writer's head and count, or is a read error if a line is too long |
| `AuditFile.RestartUnderSameInstanceBreaks` | internal/audit/verify.go:55-64 | two adjacent runs of one instance are reported broken at the second's first record |
| `AuditWriter.RunIsChained` | internal/audit/writer.go:80-92 | every run writes one chain of proper lines, whatever disk and sinks do |
| `AuditWriter.RunWritesBodies` | internal/audit/writer.go:80-92 | the lines are the chain of all the queued records, in order |
| `AuditWriter.RunPublishes` | internal/audit/writer.go:94-106 | the published head is the last durable line's, with the number of durable lines |
| `AuditWriter.HeadIsPositionedIff` | internal/audit/writer.go:97-106 | head and count name the same position if no append failed before one that succeeded, and only then unless two of the run's lines collide |
| `AuditWriter.LaggingHead` | internal/audit/writer.go:97-106 | after a failed append and a good one the count says one while the hash is the second line's |
| `AuditWriter.RunAnchorBindsHistory` | internal/audit/writer.go:40-46 | an anchor of a run with no failed append binds all of its records, or a line of the file and the run's line at its place collide |
| `AuditWriter.NothingDropped` | internal/audit/writer.go:118-127 | from a refused record on, the log is what it was plus everything appended since |
| `AuditWriter.RefusedAreReplayed` | internal/audit/writer.go:94-127 | without torn appends, the replay is the earlier records and then every line left since a refused record, in order |
| `AuditWriter.RefusedReplaysIff` | internal/audit/writer.go:94-127 | whatever happens to the other records, an appended and refused record is replayed as its own, between what was readable before and what came later, if and only if the log ended at a line boundary |
| `AuditWriter.OnlyTornMisaligns` | internal/audit/wal.go:27-37 | the log is off a line boundary only when a torn append is the last thing that left anything in it |
| `AuditWriter.TornThenRefused` | internal/audit/wal.go:27-37 | a torn append and a refused record are replayed as one fused record |
| `AuditWriter.InheritedLogInFront` | internal/audit/writer.go:118-127 | a run on an inherited log is the run on an empty one with the inherited log in front until the first cut |
| `AuditWriter.InheritedLogIsKeptIff` | internal/audit/writer.go:118-127 | every inherited log survives a run if and only if no record is delivered and truncated before the first refused one |
| `AuditWriter.InheritedLogIsCut` | internal/audit/writer.go:124-127 | one delivered record is enough to cut it |
| `AuditRuns.LivesVerify` | internal/audit/verify.go:38-78 | a file that took every record of processes with distinct instances verifies with each one's last hash and number of records, the head and count it published if no append failed |
| `AuditWriter.Writer.Process` | internal/audit/writer.go:82-132 | one turn of the loop: link, log, publish if durable, flush, cut if alone |
| `AuditWriter.Writer.Loop` | internal/audit/writer.go:80-133 | draining a queue is the value-level run |
| `AuditWriter.Writer.Replay` | internal/audit/wal.go:40-59 | the buffered records in order, failing only on a line too long |
| `ChatFrames.EveryOpeningStopsOnce` | internal/openai/sse.go:63-74 | in a well-formed stream an index is stopped as often as it opened, less one while open |
| `ChatStream.ChunkToCanonical` | internal/openai/convert.go:844-928 | the frames of a chunk's first choice in order, usage on the first, or one usage-only frame |
| `ChatStream.UsageSplitsPrompt` | internal/openai/convert.go:939-959 | input and cached tokens add up to the prompt if and only if cached is at most the prompt, never negative; output is the completion |
| `ChatStream.StreamIsWellFormed` | internal/openai/sse.go:37-174 | for any lines: one message_start, first; text only in open blocks; only open blocks stop; nothing open at message-level frames; a message_delta before message_stop |
| `ChatStream.DoneEndsMessage` | internal/openai/sse.go:80-105 | at the end marker a started message ends with message_stop and nothing is open |
| `ChatEnd.StopIsLastIff` | internal/openai/sse.go:80-105 | nothing follows a message_stop if and only if every line after the first end marker of a started message is silent |
| `ChatEnd.StopTwice` | internal/openai/sse.go:80-105 | two end markers after a message put a message_stop before the last frame |
| `ChatStream.ToolsInBlocksIffTidy` | internal/openai/sse.go:120-139 | tool frames respect blocks if and only if upstream opens no live index and sends arguments only at live ones |
| `ChatStream.StrayArguments` | internal/openai/convert.go:890-910 | a one-line stream with arguments outside every block |
| `ChatConserve.RawIsConserved` | internal/openai/sse.go:106-162 | each non-empty data line is passed on exactly once, in order |
| `ChatConserve.TextIsConserved` | internal/openai/convert.go:873-879 | the stream's text is the upstream text of each first choice, in order |
| `ChatConserve.ArgumentsAreConserved` | internal/openai/convert.go:890-910 | the argument fragments of upstream tool call j are at block j + 1, in order |
| `ChatConserve.OpenersAreConserved` | internal/openai/convert.go:882-905 | the tool blocks opened are upstream's tool calls, one block past their numbers, with their ids and names, in order |
| `ChatTools.ToolsInBlocksIffDisciplined` | internal/openai/convert.go:873-912 | in a stream of one choice, tool frames respect blocks if and only if upstream begins each call once before it ends them and sends arguments only after that |
| `ChatTools.TextAndToolsApart` | internal/openai/convert.go:880-893 | in such a stream all text is at block 0 and no tool is |
| `ChatTools.SecondChoiceCollides` | internal/openai/convert.go:886-889 | a chunk of choice 1 whose tool opens on top of its text |
| `ChatStops.StopsAreDue` | internal/openai/sse.go:80-105 | the stop reasons are upstream's finish reasons, translated, and end_turn at an end marker if upstream never ended a message that has begun |
| `ChatStops.RunNames` | internal/openai/sse.go:55-62 | every message_start names the requested model |
| `ChatConserve.ChunkUsage` | internal/openai/convert.go:915-927 | a chunk's usage is on exactly one of its frames |
| `ChatConserve.UsageIsConserved` | internal/openai/convert.go:915-927 | each chunk's usage is in the stream exactly once, in order |
| `ChatReader.Reader.StartMessage` | internal/openai/sse.go:55-62 | message_start is handed out once |
| `ChatReader.Reader.CloseOpenBlocks` | internal/openai/sse.go:63-74 | one stop for each open index, ascending, and none open afterwards |
| `ChatReader.Reader.Forward` | internal/openai/sse.go:120-161 | one canonical frame with its synthesized openers and closers |
| `ChatReader.Reader.Finish` | internal/openai/sse.go:80-105 | what the end marker hands out |
| `ChatReader.Reader.ReadLine` | internal/openai/sse.go:75-164 | the events of one line |
| `ChatReader.Reader.Read` | internal/openai/sse.go:37-174 | reading all lines is the value-level run |
| `Pricing.NearestExactly` | internal/pricing/pricing.go:147-163 | the rounded quotient is a nearest one if and only if the product is not negative or its magnitude does not round up; ties go to even |
| `Pricing.NegativeRoundsUp` | internal/pricing/pricing.go:147-163 | the negative product nearest to zero that is rounded the wrong way: minus half a micro-dollar becomes plus one |
| `Pricing.NegativeCountIsCharged` | internal/pricing/pricing.go:124-163 | a negative count reported upstream and a rate for which the unchecked cost is positive |
| `Pricing.LookupsAgreeExactly` | internal/pricing/pricing.go:108-117 | the two lookups differ exactly in the empty-model case |
| `Pricing.UnknownModelIsPriced` | internal/pricing/pricing.go:108-117 | a one-entry table that prices an unknown model on one path only |
| `Pricing.RegionSharesRate` | internal/pricing/pricing.go:67-92 | a model under any of the five region prefixes has its own rate if listed, else that of the bare model |
| `Pricing.CostUSDMicrosChecked` | internal/pricing/checked.go:13-47 | the checked cost is within 2.5 micro-dollars of the sum of each of the five counts at its own rate; it fails exactly for an unknown model, a negative count or rate, or a sum that does not fit |
| `Pricing.ReserveBound` | internal/pricing/authority.go:15-50 | the bound is at least the whole input window at each of its four rates plus the output, and less than 5 micro-dollars more |
| `Pricing.CostUSDMicros` | internal/pricing/pricing.go:124-143 | a missing rate costs nothing and is flagged; otherwise the cost is within 2.5 micro-dollars of the sum of each count at its own rate if that fits int64, and wraps if not |
| `Pricing.CostIsNear` | internal/pricing/pricing.go:124-163 | a cost of five classes is within 2.5 micro-dollars of the exact rational cost |
| `Pricing.BoundDominatesCost` | internal/pricing/authority.go:15-50 | the ceiling over the declared limits is at least every covered cost |
| `Pricing.ReservationDominates` | internal/pricing/authority.go:15-50 | when the bound exists every covered usage settles without error, at most at the bound, equal to the unchecked cost and within 2.5 micro-dollars of each count at its own rate |
| `Pricing.SettlementsAgree` | internal/pricing/checked.go:13-47 | whenever the checked cost exists the unchecked one is the same, with no empty-model surprise |
| `RejectionCounter.StepKeepsInv` | internal/metrics/metrics.go:265-279 | every atomic step keeps counter + owed differences = last-seen value |
| `RejectionCounter.CounterTelescopes` | internal/metrics/metrics.go:265-279 | for every interleaving that equation holds, and at rest the counter is the largest total reported |
| `RejectionCounter.RetryMakesProgress` | internal/metrics/metrics.go:265-279 | a failed exchange means the seen value grew, so a retry is closer to finishing |

## Left out

- FleetBound.FleetOvershoot: stated for one budget window of a fixed rule; a rollover starts the window's sums anew, and edits are in Redistribution.
- LeaseProtocol.UnblockedMeansReserved: needs honest reports and no rollover of the holder's own counter after the lease was issued; a rollover drops the old window's reservation by design. The latest answer needs neither, see LatestAnswerIsHeldBack.
- LeaseProtocol.OutstandingIffUnexpired: speaks of being counted live; the amount is in HeldBackIffUnexpired.
- LeaseProtocol.LiveUntilExpiry: speaks of being counted live; the amount is in LastLeaseIsHeldBack.
- InFlight.OvershootIsInFlight: needs limit plus overshoot to fit int64; beyond that the counter wraps.
- LimiterReference.LimiterRefinesReference: needs fixed limits per key; a change of burst or rate is visible through a reclaimed bucket.
- Settlement.CounterIsSubjectSum: needs that no debit was refused at capacity and that debits fit int64.
- AuditWriter.RefusedAreReplayed: the whole replay in one piece needs untorn appends and lines the scanner can hold; record by record RefusedReplaysIff needs neither of the others.
- Ledger.Server.constructor: starts without rules; reading policy files and the policy store is not part of this model.
- Syncer.Syncer.SyncOnce: the digest of a document set, the budgets it defines and their sorting are parameters; building the request and the tier table are not modelled.
- AuditWriter.InheritedLogIsCut: a witness on one entry; every run is in InheritedLogIsKeptIff.
- What shortening a renewal interval does to leases already issued.
- AdmissionRuns.TeamRateHolds: the limits of a bucket must not change during the run, and no key of the run may share the team's bucket; see SharedBucket.
- How the five token classes of a usage add up to the tokens a settlement books: the governor here takes the sum.
- Budget tiers and their latch, model access, and the context and sensitive-data rules beyond their mandatory flag: they decide which model serves a request, and no property here turns on that.
- The team-lookup overlay (cmd/mayu/gateway.go:448-594) layers file, store and lease limits into the policy that the governor here takes as given; of it the lease clamp is modelled, for one rule whose limit is the store's own.
- Alert levels (internal/alert/alert.go), the derivation of authority budgets (internal/policy/authority_definitions.go) and policy validation (internal/policy/policy.go) feed the parts modelled here; what they guarantee appears as a parameter or a precondition.
- Durable shared admission and escrow: not part of this model.
- Float rounding of bucket tokens: tokens are exact multiples of one over 60 000 000 000 of a token. Duration overflow is not modelled.
- Calendar and time-zone arithmetic: a window end is any function that lies after its argument and is constant inside the window.
- JSON, SSE line trimming and SHA-256: parse, render and hash are parameters; one character stands for one byte.
- Log and metric side effects, reason texts and contact fields.
- The requests' other direction (canonical frames to OpenAI chunks), SQL stores, HTTP handlers, configuration and process lifecycle.
