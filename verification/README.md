# Booking, billing, contacts and AI runs, verified

A Dafny model of four state machines of a multi-tenant CRM, and proofs about them over whole runs.

**Booking.** Slots are enumerated under schedules, breaks, exceptions, daylight-saving time and capacity; a hold is
placed on a slot, converted into an appointment, rescheduled, cancelled or expired. Capacity is checked only when a hold
is created. `Zones`, `Calendars`, `Catalogs`, `Occupancy` and `Availability` say what a slot is, `AvailabilityService`
holds the five nested loops that find them, `OpeningRules` and `SlotRules` say what they find on the stored rows alone,
`Bookings` says what each transaction does to the stored rows, and `BookingDesk` is the services as they update those
rows in place; `BookingRules` and `AppointmentRules` say on the rows whom they accept and what they write.
`BookingSafety` and `BookingGaps` prove what every transaction but one keeps: no claim is used beyond its limit, and
bookings of single-place staff stay a buffer apart. The one is a reschedule under a key that already has a hold.
`BookingReplay` gives the exact condition under which it keeps the limits and the other, stronger one under which it
keeps the gaps, and shows that the skipped window check implies both. `BookingLogs` carries both conditions to whole
logs: limits hold all along a log exactly when every replay in it spares the limits, and gaps exactly when every replay
spares the gaps. `BookingReplayRuns` holds two logs that the services accept, one that books a place twice and one that
keeps all limits and still loses a buffer. `BookingRetries` follows rows and repeated requests.

**Billing.** `Ledger` is the append-only wallet ledger with its cached balance; `Reversals` reads off the balance from
the chains of reversals. `Invoices` is what payment, reversal, renewal, retry and the daily task do to wallet, invoices
and subscription, with `Periods` for calendar arithmetic; `WalletRules` and `InvoiceRules` say on the rows what they
accept and write. `InvoiceAccounts` and `InvoiceConservation` compare invoices with the ledger, `RenewalChain` follows
the billing periods, `BillingLife` the statuses, `BillingTicks` shows that the daily task is a sequence of the logged
transactions, and `BillingRuns` holds short runs that reach the states in which the obvious stronger claims fail.
`WalletAccount` and `BillingDesk` are the services as they run. `Usage` and `Overage` are metered usage and the
arithmetic of an invoice.

**Contacts.** `Identities` normalizes identity values, `Contacts` adds, merges and resolves, `ContactMerging` proves
that merging is union-find, `ContactRules` says on the rows what is accepted and written, `ContactDesk` is the services
as they run.

**AI runs.** `AiRuns` is the protocol of one conversation: queueing, the bounded tool loop, approvals, drafts, handoffs
and supersession, with the provider an arbitrary function of the generation number. `AiEndings`, `AiTools` and
`AiEntries` say on the rows how processing ends, which tools may run and what the other entry points do; `AiSafety`,
`AiDrafts` and `AiCallIds` prove what it keeps, `AiFreshCalls` and `AiWaiting` what it keeps while the provider uses no
call id twice, and `AiUsedIds` what happens exactly when it does; `AiDesk` is the services as they run.

Each state machine is written twice: as functions on values, about which the lemmas speak, and as a class whose methods
update fields in place and are proved to do exactly what those functions say. Every class has a ghost history `log` and
a `Valid` that every service requires and keeps: the fields are what the functions make of that history, and the
invariants hold of them (limits, gaps and unique keys; a sound ledger; invoices that add up, agree with the ledger and
abut; orderly runs). So every theorem about all logs is one about the fields of the object at any time. Methods that run
inside the transaction of another are the inner half of a service and leave the history alone. Each transaction is one
atomic step. Where a transaction raises, its writes are undone; an error inside a task that is not one transaction
leaves what was done before.

Where the code does less than one would expect, the code is kept and the exact condition is proved:

- A reschedule under a key that already has a hold moves the appointment without any availability check. It keeps the
  limits exactly when there is room beside the others at every instant (`BookingReplay.ReplaySafeIff`), the buffers
  exactly when the place is apart from the others (`BookingReplay.ReplayApartIff`), over whole logs as well
  (`BookingLogs.LogSafeIff`, `BookingLogs.LogApartIff`); it can do either harm (`BookingReplayRuns.ReplayOverbooks`,
  `BookingReplayRuns.ReplayOverrunsBuffer`).
- Paying an invoice again after its payment was reversed charges nothing (`InvoiceConservation.RepaymentIsFree`,
  `BillingRuns.PaidReversedPaid`).
- A reversal under a key used before books nothing and still reopens the invoice
  (`InvoiceConservation.ReversalBooksIff`).
- A void invoice is opened again by a late reversal of its payment (`BillingLife.VoidReopensIff`,
  `BillingLife.StaysVoidIff`, `BillingRuns.VoidInvoiceReopens`).
- An invoice of the current period that is paid without the period moving on, for instance by hand, stops renewal for
  good (`RenewalChain.PaidPeriodIsStuck`, `BillingRuns.MarkedPaidIsStuck`).
- A payment failure reported for a cancelled subscription puts it back into grace (`BillingLife.EndedRevivesIff`).
- A slot is listed even when two requirements pick one resource, and then cannot be held
  (`BookingRetries.ListedSlotCanBeHeldIff`).
- Monthly renewal that starts after the 28th fails within two years (`Periods.MonthlyRenewalLastsIff`).
- An identity added to an already merged contact does not resolve to the survivor
  (`ContactMerging.ResolvesToSurvivorIff`), and a record created for one stays with it
  (`ContactMerging.RecordWithSurvivorIff`).
- A request for a human under a call id used before leaves the run running (`AiUsedIds.LeftRunningIff`), and an approval
  asked for under one leaves it waiting for nothing until it is superseded (`AiUsedIds.WaitsForNothingIff`).
- A voice callback opens a second handoff while one is unresolved (`AiSafety.OneHandoffIff`).

## Model

| member | source | states |
|---|---|---|
| `Zones.LocalCandidates` | backend/apps/booking/services.py:138-150 | the returned list holds exactly the instants whose local reading is the given one, ascending: none in a gap, two in a fold (only the second marked as fold), one otherwise |
| `Zones.SourcesByCase` | backend/apps/booking/services.py:144-149 | for any transition table whose skipped or repeated stretches do not overlap, which of the two fold lookups read back as the wall time in each of the three cases |
| `Zones.ReadingHasNoOtherSource` | backend/apps/booking/services.py:144-150 | no instant outside the two fold lookups has a given reading, so trying two folds is enough |
| `AvailabilityService.AllocateResources` | backend/apps/booking/services.py:310-360 | the loop allots one pair for each required requirement, in order, with its quantity, of the first listed resource that can serve it by the rows; it gives up exactly when no resource can serve one |
| `SlotRules.AllocationFailsIff` | backend/apps/booking/services.py:310-360 | allocation gives up exactly when no resource there is can serve one of the required requirements: wrong branch or kind, closed, blocked, or without room |
| `SlotRules.AllocationAllots` | backend/apps/booking/services.py:310-360 | the allocation is the one list of pairs with exactly one for each required requirement, its quantity, and the first listed resource that can serve it |
| `Availability.AllocationHasRoom` | backend/apps/booking/services.py:293-360 | every allocated pair names an active resource of the branch whose load in the window plus the quantity is within its capacity |
| `AvailabilityService.SlotIfOpen` | backend/apps/booking/services.py:413-519 | the innermost body yields a slot exactly when every gate passes, and then the slot of that staff member and start |
| `AvailabilityService.SlotsAtReading` | backend/apps/booking/services.py:411-519 | exactly the open slots whose local reading is the cursor, both folds included |
| `AvailabilityService.SlotsInPeriod` | backend/apps/booking/services.py:408-520 | the cursor loop terminates and yields exactly the open slots on the period's grid |
| `AvailabilityService.SlotsOfStaff` | backend/apps/booking/services.py:407-520 | exactly the open slots on the grid of some period of the day |
| `AvailabilityService.SlotsOfDay` | backend/apps/booking/services.py:397-520 | exactly the slots of the eligible staff on that day |
| `AvailabilityService.Slots` | backend/apps/booking/services.py:368-523 | for a valid range exactly the slots on offer by the rows, strictly sorted by start and staff; the range error otherwise |
| `AvailabilityService.SlotByKey` | backend/apps/booking/services.py:522-523 | a slot is a function of its start and staff id, so the dictionary loses nothing |
| `AvailabilityService.ListingUnique` | backend/apps/booking/services.py:368-523 | the listing of a range is determined by what it must contain |
| `AvailabilityService.MatchingSlot` | backend/apps/booking/services.py:538-547 | listing one local day and taking the first slot at the start gives the bookable slot of the lowest staff id there, or none |
| `AvailabilityService.MatchIsMatch` | backend/apps/booking/services.py:538-547 | the match, defined over the staff list, is a listed slot with that start of the lowest staff id, or there is none |
| `AvailabilityService.ListedSlotIsMatched` | backend/apps/booking/services.py:538-547 | every slot listed for any range is found again, identical, from its start and staff id |
| `AvailabilityService.MatchedSlotIsListed` | backend/apps/booking/services.py:538-547 | whatever the search finds is listed by every range that contains its local day |
| `OpeningRules.WeeklyPeriodsAreOpen` | backend/apps/booking/services.py:153-172 | a weekly period of an owner on a day is exactly the period of some rule of the owner for that weekday, switched on and in force, or where there is none one of the usual hours |
| `OpeningRules.BranchPeriodsAre` | backend/apps/booking/services.py:248-273 | the periods a branch takes bookings in are exactly those and the pieces of its opening overrides that fall on the local day |
| `OpeningRules.OpenForIsAllowed` | backend/apps/booking/services.py:217-245 | an interval is allowed exactly when an override spans it, or it lies on one local day inside one rule in force, or no rule was ever switched on |
| `OpeningRules.UnblockedIs` | backend/apps/booking/services.py:179-196 | and unblocked exactly when every break of the day and every closing exception is over before or starts after it |
| `OpeningRules.PolicyInForceIsResolved` | backend/apps/booking/services.py:100-118 | the resolved policy is the one of the highest-ranking scope that applies, branch before service, and the default only when none does |
| `SlotRules.SeatLoadIsCount` | backend/apps/booking/services.py:276-290 | the load on a staff member is the number of standing appointments and live holds that meet the busy interval |
| `SlotRules.SlotsAreOnOffer` | backend/apps/booking/services.py:368-523 | a slot is found exactly when it is on offer by the rows: staff, duration, grid, notice, horizon, opening periods, overrides, breaks, exceptions, seats and resources, each spelled out on the stored rows |
| `Ordering.UniqueSortedSpec` | backend/apps/booking/services.py:522-523 | keying rows in a dictionary and sorting keeps exactly the rows, in strict order, when a key determines its row |
| `Bookings.StoredLinksSpec` | backend/apps/booking/models.py:457 | writing link rows one by one under the unique constraint succeeds exactly when no resource comes twice |
| `BookingRules.HoldGrantedIff` | backend/apps/booking/services.py:553-608 | a hold is granted exactly under a key that is not blank and either known or, at an active branch and service and short enough, for a chosen slot with a length and no resource twice |
| `BookingRules.GrantedHold` | backend/apps/booking/services.py:575-608 | under a new key it is one more row: the slot on offer at that start of the staff member asked for or of lowest id, one link a pair, and the hold seconds of the policy in force |
| `BookingRules.PlacedHoldLinksAll` | backend/apps/booking/services.py:596-605 | every hold placed links, for each required requirement of its service, a resource of the branch and kind in exactly that quantity, and nothing else |
| `AppointmentRules.ConvertedIff` | backend/apps/booking/services.py:672-690 | a conversion is accepted exactly with a key that is not blank, an entitlement, and a known key or else an active hold that has not run out |
| `AppointmentRules.ConvertedAppointment` | backend/apps/booking/services.py:690-740 | under a new key there is one more appointment, of the hold's time and resources, waiting for confirmation exactly when its service or the policy in force wants one, and the hold is used up |
| `AppointmentRules.StatusChangesIff` | backend/apps/booking/services.py:777-936 | whatever the transaction, an appointment changes status exactly by a valid confirmation, a cancellation in time, or a step of the allowed kind, each spelled out on the rows |
| `AppointmentRules.ConfirmationAnswered` | backend/apps/booking/services.py:777-814 | a confirmation is accepted exactly when the appointment is then confirmed, says whether that is new, and a refusal changes nothing |
| `AppointmentRules.CancellationAnswered` | backend/apps/booking/services.py:875-906 | a cancellation is accepted exactly when the appointment is then cancelled, says whether that is new, and a refusal changes nothing |
| `AppointmentRules.StatusAnswered` | backend/apps/booking/services.py:909-936 | a status is set exactly along the allowed steps, nothing but the status changes, and a refusal changes nothing |
| `AppointmentRules.RescheduledIff` | backend/apps/booking/services.py:817-841 | a reschedule is accepted exactly for a standing appointment, a customer the policy lets do it, and a hold granted under the derived key |
| `AppointmentRules.RescheduledAppointment` | backend/apps/booking/services.py:845-860 | the appointment then has the time and resources of that hold, which is used up, and nothing else changes |
| `AppointmentRules.ExpiresIff` | backend/apps/booking/tasks.py:9-14 | a hold runs out exactly by the expiry task, when it is active and its time has come |
| `AppointmentRules.ExpiredAreCounted` | backend/apps/booking/tasks.py:9-14 | the number the expiry task reports is the number of holds that have run out |
| `BookingDesk.Desk.CreateHold` | backend/apps/booking/services.py:553-608 | a blank key, an inactive branch or service, a bad range, a slot not offered, one without length and one using a resource twice are refused without a change; a known key returns its hold; otherwise one active hold on exactly the matching slot, its resources and the policy's expiry is appended |
| `BookingDesk.Desk.CreateFromHold` | backend/apps/booking/services.py:667-773 | a live hold becomes an appointment at its time with its resources, pending or confirmed by service mode and policy, and is marked converted; a known key returns its appointment; an expired or used hold is refused without a change |
| `BookingDesk.Desk.Confirm` | backend/apps/booking/services.py:777-813 | a pending appointment becomes confirmed, a confirmed one stays; customers cannot confirm manual-only services or with a bad token; everything else is refused |
| `BookingDesk.Desk.Reschedule` | backend/apps/booking/services.py:817-871 | a blocking appointment is moved to the time and resources of whatever hold the derived key yields, old or new, and that hold is converted; a refused hold changes nothing |
| `BookingDesk.Desk.Cancel` | backend/apps/booking/services.py:875-905 | a blocking appointment becomes cancelled unless a customer may not cancel or is inside the notice; a cancelled one stays; everything else is refused |
| `BookingDesk.Desk.SetStatus` | backend/apps/booking/services.py:909-936 | the status changes along the allowed transitions and is refused otherwise |
| `BookingDesk.Desk.ExpireHolds` | backend/apps/booking/tasks.py:9-14 | exactly the active holds past their time become expired, and their number is returned |
| `BookingSafety.PlacementWithinLimits` | backend/apps/booking/services.py:553-608 | a hold placed where the window check passed keeps every staff member and resource within its limit at every instant |
| `BookingSafety.ConversionConserves` | backend/apps/booking/services.py:667-773 | converting a hold leaves the use of every claim at every instant exactly as it was |
| `BookingSafety.MoveBalance` | backend/apps/booking/services.py:841-860 | the exact change a move makes to the use of any claim, for any hold |
| `BookingSafety.RescheduleWithinLimits` | backend/apps/booking/services.py:817-871 | a reschedule under an unused key keeps every claim within its limit |
| `BookingSafety.StepWithinLimits` | backend/apps/booking/services.py:550-936 | every transaction except a reschedule under a used key keeps every claim within its limit, the clock having moved on |
| `BookingGaps.PlacedApart` | backend/apps/booking/services.py:416-417 | a booking placed in a free busy window, buffers included, is apart from every live booking of its staff member |
| `BookingGaps.ConvertApart` | backend/apps/booking/services.py:667-773 | conversion keeps the gaps of a single-place staff member |
| `BookingGaps.RescheduleApart` | backend/apps/booking/services.py:817-871 | a reschedule under an unused key keeps the gaps |
| `BookingReplay.ReplayIsMove` | backend/apps/booking/services.py:558-562 | a reschedule under a used key is the bare move onto the old hold, or refused |
| `BookingReplay.ReplaySafeIff` | backend/apps/booking/services.py:840-860 | such a replay keeps all limits exactly when at every instant of the old hold there is room beside the other bookings |
| `BookingReplay.ReplayApartIff` | backend/apps/booking/services.py:840-860 | and the gaps exactly when the old hold's place is apart from every other live booking of its single-place staff member |
| `BookingReplay.WindowCheckSuffices` | backend/apps/booking/services.py:483-495 | the window check over the buffered interval, made beside the other bookings, implies both conditions; the converse fails |
| `BookingReplay.ServiceCheckSuffices` | backend/apps/booking/services.py:483-495 | so does the check as the service makes it for a new hold, which the replay skips |
| `BookingReplay.ReplayIsNeutralIff` | backend/apps/booking/services.py:840-860 | a replay onto a converted hold changes nothing exactly when the appointment still stands on it, however much later |
| `BookingLogs.StepSafeIff` | backend/apps/booking/services.py:550-936 | any transaction keeps every claim within its limit exactly when it is not an accepted replay without that room |
| `BookingLogs.StepApartIff` | backend/apps/booking/services.py:550-936 | and the gaps exactly when it is not an accepted replay to a place that is not apart |
| `BookingLogs.LogSafeIff` | backend/apps/booking/services.py:550-936 | all along a log no claim exceeds its limit exactly when every replay in it spares the limits |
| `BookingLogs.LogApartIff` | backend/apps/booking/services.py:550-936 | all along a log the gaps are kept exactly when every replay in it spares the gaps |
| `BookingLogs.StaffNeverOverbooked` | backend/apps/booking/services.py:483-495 | after any log whose replayed reschedules spare the limits, no instant has more live bookings of a staff member than the profile's maximum |
| `BookingLogs.ResourceNeverOverused` | backend/apps/booking/services.py:293-307 | after any such log the quantities linked to live bookings never exceed a resource's capacity |
| `BookingLogs.BuffersKept` | backend/apps/booking/services.py:416-417 | after any log whose replayed reschedules spare the gaps, of two live bookings of a single-place staff member the later starts at least the smaller of the earlier's after-buffer and its own before-buffer after the earlier ends |
| `BookingLogs.FreshKeysSpare` | backend/apps/booking/services.py:841 | a log in which no reschedule reuses a key spares both |
| `BookingReplayRuns.ReplayOverbooks` | backend/apps/booking/services.py:558-562 | a concrete six-step log with a reused reschedule key that books one place twice |
| `BookingReplayRuns.ReplayOverrunsBuffer` | backend/apps/booking/services.py:558-562 | a concrete log, half-hour buffers, whose replay keeps all limits and has room at every instant, fails the window check and leaves two bookings without their gap |
| `BookingRetries.StepFollows` | backend/apps/booking/services.py:550-936 | every transaction keeps every row in place; holds keep key, time and resources and only expire or convert; appointments keep their identity and only move along their life; new rows have new keys |
| `BookingRetries.AlwaysUniqueKeys` | backend/apps/booking/models.py:437 | in every reachable state no two holds and no two appointments share a key |
| `BookingRetries.HoldRedelivered` | backend/apps/booking/services.py:558-574 | an accepted hold request delivered again at any later time gets its hold and changes nothing |
| `BookingRetries.ConversionRedelivered` | backend/apps/booking/services.py:674-678 | so does an accepted conversion: one key never makes two appointments |
| `BookingRetries.AppointmentStays` | backend/apps/booking/services.py:909-936 | in any run a completed, cancelled, missed or rejected appointment never changes again |
| `BookingRetries.ListedSlotCanBeHeldIff` | backend/apps/booking/services.py:575-608 | a listed slot can be held at once under a usable new key exactly when it has a length and does not use one resource for two requirements; the hold is for that very slot |
| `Ledger.AppendSound` | backend/apps/billing/wallet.py:119-186 | an append keeps the ledger sound: running sums, gapless versions, unused keys, no row reversed twice |
| `Ledger.DeliverSound` | backend/apps/billing/wallet.py:189-393 | so does every wallet request |
| `Ledger.ReconciliationMatches` | backend/apps/billing/wallet.py:622-664 | in every reachable state reconciliation finds difference 0 and the balance is not negative |
| `Ledger.VersionsAndBalances` | backend/apps/billing/wallet.py:160-186 | versions run 1, 2, 3 ..., amounts are positive, and each stored balance is the running sum at its version |
| `Ledger.KeysUnique` | backend/apps/billing/models.py:580-583 | no two rows of a sound ledger share an idempotency key |
| `Ledger.ReplayChangesNothing` | backend/apps/billing/wallet.py:135-149 | a request whose key is in the ledger changes nothing, whatever else it asks for |
| `Ledger.RefusalChangesNothing` | backend/apps/billing/wallet.py:135-163 | a refused request changes nothing |
| `Ledger.DeliveryIsIdempotent` | backend/apps/billing/wallet.py:135-149 | the wallet after any log equals the wallet after the log without its replays |
| `Ledger.NoReplayIsLeft` | backend/apps/billing/wallet.py:135-149 | and none of the requests left in that log repeats a key |
| `Ledger.Redelivery` | backend/apps/billing/wallet.py:135-149 | an accepted request delivered again at any later time changes nothing, cannot get another row as answer, and gets its answer exactly when the wallet still admits it |
| `WalletRules.StoredUnderIs` | backend/apps/billing/wallet.py:89-93 | the stored key is the given text without the spaces around it, at least 8 characters, cut to 200 |
| `WalletRules.AppendedIff` | backend/apps/billing/wallet.py:119-186 | an append is accepted exactly for a positive amount under a usable key that is new and covered by the balance or stored for the very same operation; it then books one row with the new balance and version, or nothing |
| `WalletRules.CreditedIff` | backend/apps/billing/wallet.py:190-247 | a credit is accepted exactly so, not refused, and on a wallet not closed |
| `WalletRules.DebitedIff` | backend/apps/billing/wallet.py:251-287 | a debit adjustment exactly so, not refused, and on an active wallet |
| `WalletRules.ReversedIff` | backend/apps/billing/wallet.py:305-326 | a reversal of a row not reversed yet books the opposite of that row, for its amount, linked to it |
| `WalletRules.ReversedAlready` | backend/apps/billing/wallet.py:305-318 | one of a reversed row books nothing, and is answered exactly under the key of its reversal |
| `WalletRules.ChargedIff` | backend/apps/billing/wallet.py:472-530 | an active wallet is charged a positive amount exactly when the balance covers it; one that does not is left alone |
| `WalletRules.FrozenIff` | backend/apps/billing/wallet.py:367-393 | freezing and thawing set the status exactly of a wallet not closed, and change nothing else |
| `WalletAccount.Account.AppendLocked` | backend/apps/billing/wallet.py:119-186 | a known key returns its row or conflicts; an overdraft is refused; otherwise balance, version and exactly one row move together |
| `WalletAccount.Account.CreditWallet` | backend/apps/billing/wallet.py:190-247 | an open or frozen wallet gets the credit appended; a closed one refuses |
| `WalletAccount.Account.DebitAdjustment` | backend/apps/billing/wallet.py:251-287 | only an active wallet gets the debit appended |
| `WalletAccount.Account.Reverse` | backend/apps/billing/wallet.py:291-326 | the opposite of a row is appended, linked to it; a row already reversed answers only to the same key |
| `WalletAccount.Account.Charge` | backend/apps/billing/wallet.py:472-530 | an active wallet that covers a positive amount is debited under the invoice's fixed key; a short one is left alone |
| `WalletAccount.Account.SetFrozen` | backend/apps/billing/wallet.py:367-393 | freezing changes the status and nothing else |
| `WalletAccount.Account.Reconcile` | backend/apps/billing/wallet.py:622-664 | expected balance, difference and row count, and with a sound ledger no difference, as many rows as versions and no negative balance |
| `WalletAccount.Account.Restore` | backend/apps/billing/wallet.py:450-452 | rolling a transaction back gives the row and its history as they were, and so a sound ledger |
| `Reversals.ReversalIsLater` | backend/apps/billing/wallet.py:305-326 | a reversal has a later version than its row and the opposite signed amount, so chains do not cycle |
| `Reversals.AtMostOneReversal` | backend/apps/billing/models.py:551-557 | in any run no row is reversed twice |
| `Reversals.ChainSumByParity` | backend/apps/billing/wallet.py:305-326 | a chain of reversals is as deep as it is long and sums to the original amount when its length is odd, to zero when even |
| `Reversals.BalanceIsOddChains` | backend/apps/billing/wallet.py:305-326 | in any run the balance is the sum of the original rows whose chain has odd length |
| `Periods.PeriodEndIsLater` | backend/apps/billing/services.py:177-187 | a computed period end is a real date strictly after the start |
| `Periods.OrderIsCalendar` | backend/apps/billing/wallet.py:547 | on real dates the order in which period ends are compared is the calendar's: year, month, day, time; equal only for equal stamps |
| `Periods.YearsAreGregorian` | backend/apps/billing/services.py:177-187 | the days before a year follow the Gregorian rule: every fourth, not every hundredth, but every four hundredth year has one more |
| `Periods.DaysAreCounted` | backend/apps/billing/services.py:184 | n days later is exactly n days later by that count, at the same time of day |
| `Periods.NumberedApart` | backend/apps/billing/services.py:184 | and day number and time of day tell stamps apart |
| `Periods.MonthlyEnd` | backend/apps/billing/services.py:185-187 | a monthly period ends on the same day and time of the next month, and has an end exactly when that month has the day |
| `Periods.YearlyEnd` | backend/apps/billing/services.py:178-182 | a yearly period ends on the same date and time a year on, or on 28 February after a 29th |
| `Periods.OneTimeEnd` | backend/apps/billing/services.py:183-184 | a one-time period ends exactly 3650 days later by the calendar's day count, and has no end exactly when that is past the last day of the year 9999 |
| `Periods.YearlyRenewals` | backend/apps/billing/services.py:178-182 | n yearly renewals are n years later |
| `Periods.RenewalsKeepTheDay` | backend/apps/billing/services.py:185-187 | monthly renewals keep the day of the month, and n of them are defined exactly when each of the n months has that day |
| `Periods.MonthlyRenewalLastsIff` | backend/apps/billing/services.py:185-187 | two years or more of monthly renewals are defined exactly when the day is at most the 28th |
| `Invoices.DueListSpec` | backend/apps/billing/wallet.py:567-578 | the retried invoices are those paid from a wallet, open, with something due whose date has come, in order of due date and creation, and one left out comes after a hundred others |
| `InvoiceRules.GeneratedIff` | backend/apps/billing/services.py:601-656 | an invoice is generated exactly under a new id: one more draft for the current period, nothing paid, all due |
| `InvoiceRules.IssuedIff` | backend/apps/billing/services.py:660-670 | issued is exactly a draft, which becomes open, or an open one, which stays |
| `InvoiceRules.MarkedPaidIff` | backend/apps/billing/services.py:674-709 | marked paid is exactly an open one, reviewed where the provider is manual, or a paid one, which stays; restrictions are lifted, no money and no period moves |
| `InvoiceRules.VoidedIff` | backend/apps/billing/services.py:713-723 | voided is exactly one not paid |
| `InvoiceRules.PaidIff` | backend/apps/billing/wallet.py:450-530 | when a wallet payment succeeds, falls short and is refused, on the rows |
| `InvoiceRules.PaymentWrites` | backend/apps/billing/wallet.py:519-546 | a payment books the amount due, pays the invoice in full, ends trial and restriction, and moves the period on to the computed end exactly when it is over and the invoice is not for an older one |
| `InvoiceRules.ShortfallWrites` | backend/apps/billing/wallet.py:396-446 | a shortfall marks the attempt failed and puts a subscription not yet restricted or over into grace for exactly the agreed days |
| `InvoiceRules.PaidYear` | backend/apps/billing/wallet.py:544-549 | one yearly payment buys one year: the next period ends on the same date a year after the paid one |
| `InvoiceRules.ReversalWrites` | backend/apps/billing/wallet.py:327-363 | reversing a payment reopens its invoice in full and puts a subscription that is not over into grace |
| `InvoiceRules.ReversalOfOther` | backend/apps/billing/wallet.py:305-330 | a refused reversal changes nothing; one of another row, or of one reversed before, is the wallet's alone |
| `InvoiceRules.RenewalWrites` | backend/apps/billing/wallet.py:596-618 | a renewal that is due pays the newest invoice of the current period, issued, or generated when there is none, and an error undoes the preparation |
| `InvoiceRules.RenewalRefused` | backend/apps/billing/wallet.py:599-609 | a renewal not from the wallet or not due is refused without a change |
| `InvoiceRules.WalletRequestWrites` | backend/apps/billing/wallet.py:190-393 | a credit, a debit and a freeze do to the wallet what they do to one without invoices, and touch nothing else |
| `BillingDesk.Desk.Pay` | backend/apps/billing/wallet.py:450-564 | an open invoice that the wallet covers is charged and becomes paid, the subscription comes back into force and may move on; a short wallet leaves it open with a failed attempt and puts the subscription in grace; errors undo everything |
| `BillingDesk.Desk.ReversePayment` | backend/apps/billing/wallet.py:291-363 | the ledger row is reversed; the invoice it paid is reopened with everything due, and the subscription goes into grace unless it has ended |
| `BillingDesk.Desk.Credit` | backend/apps/billing/wallet.py:190-247 | a credit changes the wallet as the ledger says and nothing else of the books |
| `BillingDesk.Desk.Debit` | backend/apps/billing/wallet.py:251-287 | so does a debit adjustment |
| `BillingDesk.Desk.Freeze` | backend/apps/billing/wallet.py:367-393 | and freezing |
| `BillingDesk.Desk.Renew` | backend/apps/billing/wallet.py:596-618 | a due subscription gets its current period's invoice found or generated, issued and paid; an error leaves everything as it was |
| `BillingDesk.Desk.RetryDue` | backend/apps/billing/wallet.py:567-584 | the loop over due invoices stops at the first that is not paid or raises, keeping the payments before it |
| `BillingDesk.Desk.RecordShortfall` | backend/apps/billing/wallet.py:396-446 | a shortfall marks the attempt failed and, unless it is already restricted or over, puts the subscription in grace |
| `BillingDesk.Desk.Generate` | backend/apps/billing/services.py:601-656 | a draft for the current period with nothing paid and everything due |
| `BillingDesk.Desk.Issue` | backend/apps/billing/services.py:660-670 | draft to open, open unchanged, anything else refused |
| `BillingDesk.Desk.MarkPaid` | backend/apps/billing/services.py:674-709 | open to paid, and a subscription in arrears back in force, without moving the period |
| `BillingDesk.Desk.VoidInvoice` | backend/apps/billing/services.py:713-723 | draft or open to void, void unchanged, anything else refused |
| `BillingDesk.Desk.PaymentFailed` | backend/apps/billing/services.py:816-825 | a reported failure puts the subscription into grace, whatever it was |
| `BillingDesk.Desk.ExpireGrace` | backend/apps/billing/services.py:829-835 | a grace period that is over pauses the subscription, any other state stays |
| `BillingDesk.Desk.Lifecycle` | backend/apps/billing/tasks.py:9-29 | an ended trial is renewed or put in grace, an active subscription past its period is renewed, a grace period that is over pauses; an error stops it, keeping what was done; the history grows by exactly those transactions |
| `BillingTicks.TickFollowsLog` | backend/apps/billing/tasks.py:9-29 | the daily task, wherever it stops, is a sequence of the logged transactions, so that it reaches no state the log theorems do not cover |
| `BillingTicks.TickWithoutRenewal` | backend/apps/billing/tasks.py:9-29 | with no trial and no period over, the daily task only pauses a grace period that is over |
| `BillingTicks.TickRenews` | backend/apps/billing/tasks.py:20-26 | an active subscription past its period is renewed once and counted as renewed or due |
| `BillingTicks.TickEndsTrial` | backend/apps/billing/tasks.py:13-19 | an ended trial is counted, and renewed from the wallet or put in grace |
| `BillingTicks.RetryStops` | backend/apps/billing/wallet.py:567-584 | a retry pays one due invoice after another, each from where the last left off, up to the first that is not paid, and counts them |
| `BillingTicks.RetryPaysTheDue` | backend/apps/billing/wallet.py:567-584 | a retry pays the invoices of that list one after another, up to the first that is not paid, and counts them |
| `InvoiceAccounts.StepConsistent` | backend/apps/billing/wallet.py:291-618 | every event keeps invoices and ledger in agreement, reversals being asked for under unused keys |
| `InvoiceAccounts.TickConsistent` | backend/apps/billing/tasks.py:9-29 | so does the daily task, wherever it stops |
| `InvoiceConservation.OnePaymentPerInvoice` | backend/apps/billing/models.py:584-592 | in any run, re-used keys included, no invoice gets a second payment row |
| `InvoiceConservation.PaidPlusDue` | backend/apps/billing/services.py:651-656 | in any run, re-used keys included, paid plus due is the total of every draft, open or paid invoice |
| `InvoiceConservation.PaymentsCoverInvoices` | backend/apps/billing/wallet.py:450-564 | the totals of wallet-paid invoices are the payments that stand plus the totals of invoices paid though their payment has been reversed |
| `InvoiceConservation.ConservationIff` | backend/apps/billing/wallet.py:327-334 | standing payments sum to the totals of wallet-paid invoices exactly when no paid invoice has a reversed payment |
| `InvoiceConservation.RepaymentIsFree` | backend/apps/billing/wallet.py:519-530 | paying an open invoice charges its total exactly when it was never paid before; otherwise nothing, and it is paid though its payment stays reversed |
| `InvoiceConservation.ReversalBooksIff` | backend/apps/billing/wallet.py:305-334 | an accepted reversal books a row exactly when its key is unused, and reopens the invoice either way |
| `BillingRuns.PaidReversedPaid` | backend/apps/billing/wallet.py:519-530 | a concrete run that pays, reverses and pays again at no charge |
| `RenewalChain.StepChained` | backend/apps/billing/wallet.py:535-618 | every event keeps the chain of periods, and leaves the period alone or moves it on by one |
| `RenewalChain.TickChained` | backend/apps/billing/tasks.py:9-29 | the daily task keeps the chain and never takes the period back |
| `RenewalChain.PeriodsAbut` | backend/apps/billing/wallet.py:610-615 | in any run consecutive invoices are for abutting periods |
| `RenewalChain.OneInvoiceAPeriod` | backend/apps/billing/wallet.py:610-615 | in any run no instant lies in the periods of two invoices |
| `RenewalChain.PeriodOnlyMovesOn` | backend/apps/billing/wallet.py:547-549 | in any run a step leaves the period alone or starts the next where it ended, with a strictly later end |
| `RenewalChain.OlderInvoiceNeverAdvances` | backend/apps/billing/wallet.py:547-549 | paying any invoice but the current period's never moves the period |
| `RenewalChain.RenewalAdvancesIff` | backend/apps/billing/wallet.py:596-618 | a renewal that reports success moves the period exactly when it is over and its invoice was not paid before |
| `RenewalChain.PaidPeriodIsStuck` | backend/apps/billing/wallet.py:610-618 | once the current period's invoice is paid without the period moving, nothing but a reversal can move it again |
| `BillingRuns.MarkedPaidIsStuck` | backend/apps/billing/services.py:702-707 | a concrete run that gets there: a short renewal, then the invoice marked paid by hand; every later renewal is refused |
| `BillingLife.StepFollows` | backend/apps/billing/services.py:660-723 | every event but a reversal keeps every invoice in place with its id, period, due date and total, and moves its status only forward |
| `BillingLife.ReverseFollows` | backend/apps/billing/wallet.py:327-334 | a reversal opens exactly the invoice whose payment it reverses, whatever its status, and leaves every other one alone |
| `BillingLife.InvoiceStays` | backend/apps/billing/models.py:359-366 | in any run, re-used keys included, an invoice keeps its id, its period, its due date and its total |
| `BillingLife.VoidReopensIff` | backend/apps/billing/wallet.py:327-334 | an event opens a void invoice exactly when it is an accepted reversal of the row that paid it, not reversed before |
| `BillingLife.StaysVoidIff` | backend/apps/billing/wallet.py:327-334 | in any run a void invoice is void ever after exactly when no later event is such a reversal |
| `BillingLife.FreshKeysKeepVoid` | backend/apps/billing/services.py:713-723 | with fresh reversal keys a void invoice stays void in any run |
| `BillingRuns.VoidInvoiceReopens` | backend/apps/billing/wallet.py:327-334 | a concrete run: a debit reversed under a key, an invoice paid and its payment reversed under the same key, the invoice voided, the payment reversed under a fresh key; the void invoice is open again |
| `BillingLife.PaymentRestores` | backend/apps/billing/wallet.py:535-546 | a payment that goes through ends trial and restriction |
| `BillingLife.EndedRevivesIff` | backend/apps/billing/services.py:816-825 | a cancelled or expired subscription stays so under every event except a reported payment failure, which puts it back into grace |
| `Usage.Meter.Record` | backend/apps/billing/services.py:478-512 | a repeated key or a negative quantity without correction changes nothing; otherwise one event is stored and its aggregate grows by the quantity; every aggregate stays the sum of its events |
| `Usage.Meter.Reconcile` | backend/apps/billing/services.py:545-563 | every aggregate of the period is set to the sum of its events; after any history of recordings that changes nothing |
| `Usage.AlwaysSummed` | backend/apps/billing/services.py:501-511 | in every reachable state an aggregate is kept for exactly the meters and periods with an event, and is the sum of its events |
| `Usage.ReconciliationIsIdentity` | backend/apps/billing/services.py:545-563 | after any run reconciling a period changes nothing |
| `Usage.DuplicatesChangeNothing` | backend/apps/billing/services.py:484-500 | the tables after any log equal those after the log without its duplicates |
| `Usage.CountedOnce` | backend/apps/billing/services.py:484-500 | a reading accepted once is never counted again |
| `Usage.NoDuplicateIsLeft` | backend/apps/billing/services.py:484-500 | and none of the readings left in that log repeats a key |
| `Usage.CountedIff` | backend/apps/billing/services.py:482-500 | a reading is refused exactly when negative without being a correction, and counted exactly when neither refused nor stored under its key before |
| `Usage.CountedReading` | backend/apps/billing/services.py:484-512 | counted, it is one more event, and its quantity is added to the aggregate of its meter and period and to no other |
| `Usage.ReconciliationRepairs` | backend/apps/billing/services.py:545-563 | reconciling any tables whatever makes the period's aggregates the sums of its events and leaves the rest alone |
| `Overage.RoundingIsMonotone` | backend/apps/billing/services.py:576 | rounding half up, away from zero, respects order |
| `Overage.RoundingOfHalves` | backend/apps/billing/services.py:576 | halves go away from zero and whole amounts stay |
| `Overage.CalculateOverage` | backend/apps/billing/services.py:566-587 | one line for each rated meter used beyond its included quantity, in order, billing usage minus included at the meter's rate, rounded; none otherwise |
| `Overage.LinesBillTheOver` | backend/apps/billing/services.py:566-587 | the lines are exactly those, each rounded half away from zero |
| `Overage.NothingOverCostsThePrice` | backend/apps/billing/services.py:569-575 | used within what is included, or without a rate, an invoice has no line and costs the price |
| `Overage.TotalIsNearlyExact` | backend/apps/billing/services.py:566-656 | the total differs from price plus rate times usage beyond the included quantities by at most half a minor unit for each overage line |
| `Overage.TotalIsMonotone` | backend/apps/billing/services.py:566-656 | with non-negative rates, using at least as much of every meter never costs less |
| `Overage.InvoiceChargesTheEvents` | backend/apps/billing/services.py:601-656 | after any run the invoice is within half a minor unit a line of the exact cost of the recorded events |
| `Identities.NormalizeIsIdempotent` | backend/apps/crm/services.py:56-68 | a normalized identity is its own normal form |
| `Identities.SamePhoneIff` | backend/apps/crm/services.py:61-67 | two phone numbers are one identity exactly when they have the same digits and are both international or both not |
| `ContactRules.SameTextIff` | backend/apps/crm/services.py:57-68 | two values other than phone numbers are one identity exactly when they read the same but for spaces around and case |
| `ContactRules.PhoneIs` | backend/apps/crm/services.py:61-67 | a phone number is its digits, after a plus sign when written with one or nine digits or more |
| `ContactRules.DigitsOfParts` | backend/apps/crm/services.py:62 | the digits of a text are those of its parts in order |
| `ContactRules.AddedIff` | backend/apps/crm/services.py:136-166 | an identity is added exactly when something is left of its value, no stored row has it and the contact is there |
| `ContactRules.MergedIff` | backend/apps/crm/services.py:188-236 | a merge is accepted exactly for two different unmerged contacts; it archives the source, gives the target its tags and records, and touches no other contact |
| `ContactRules.LoopLaw` | backend/apps/crm/services.py:201-211 | whatever keys are stored, the loop deletes a row of the source exactly when another stored row has its key, moves it otherwise, and loses no key |
| `ContactDesk.Desk.AddIdentity` | backend/apps/crm/services.py:136-166 | a new normalized key becomes an identity of the contact, merged or not; an empty or known one is refused without a change |
| `ContactDesk.Desk.MoveIdentities` | backend/apps/crm/services.py:201-211 | the loop over the source's identities leaves exactly the specified rows |
| `ContactDesk.Desk.MoveRecords` | backend/apps/crm/services.py:218-221 | the four bulk updates together re-point every note, conversation, lead and task of the source and no other |
| `ContactDesk.Desk.Merge` | backend/apps/crm/services.py:188-236 | two different unmerged contacts: the source's identities, tags, notes, conversations, leads and tasks go to the target, the source is archived and names it; anything else is refused without a change |
| `ContactDesk.Desk.AddRecord` | backend/apps/crm/models.py:163-449 | a note, conversation, lead or task is stored for any contact there is, merged or not |
| `ContactMerging.SurvivorByLink` | backend/apps/crm/services.py:222-226 | the survivor is unmerged; an unmerged contact is its own survivor; a merged one shares its target's survivor, one merge deeper |
| `ContactMerging.LinksReachSurvivorIff` | backend/apps/crm/services.py:222-226 | followed k times, merged_into has led from a contact to its survivor exactly when at least as many merges lie between them |
| `ContactMerging.NoCycle` | backend/apps/crm/services.py:222-226 | no contact is merged into itself, directly or through others |
| `ContactMerging.OneSurvivorIffConnected` | backend/apps/crm/services.py:188-236 | two contacts end up in one survivor exactly when a chain of merges connects them |
| `ContactMerging.LoopMovesAll` | backend/apps/crm/services.py:201-211 | with unique keys the loop moves every identity of the source and deletes none |
| `ContactMerging.NoIdentityIsLost` | backend/apps/crm/services.py:207-208 | in every reachable state keys are unique and no merge has deleted an identity |
| `ContactMerging.ResolvesToSurvivorIff` | backend/apps/crm/services.py:239-245 | an accepted identity always resolves, and to its contact's survivor exactly when that contact was unmerged when it was added |
| `ContactMerging.IdentityOnMergedContact` | backend/apps/crm/services.py:136-166 | a concrete run in which a merged contact is given an identity, which then resolves to it and not to the survivor |
| `ContactMerging.RecordWithSurvivorIff` | backend/apps/crm/services.py:218-221 | in any run a note, conversation, lead or task is with the survivor of its contact exactly when that contact was unmerged when it came |
| `ContactMerging.TagsReachSurvivor` | backend/apps/crm/services.py:212-217 | the survivor has every tag of the contacts merged into it |
| `AiDesk.Desk.CreateHandoff` | backend/apps/ai_runtime/services.py:1057-1097 | with none open, a handoff is opened, the conversation waits for a human and the run is handed off; with one open, only a run not yet over is handed off |
| `AiDesk.Desk.ExecuteTool` | backend/apps/ai_runtime/tools.py:692-726 | a succeeded call returns without effect, one in execution or of an unknown tool is an error; otherwise the handler's end decides, and a handoff tool hands its run off |
| `AiDesk.Desk.HandleCall` | backend/apps/ai_runtime/services.py:582-634 | an invalid or disabled call is recorded as rejected and hands the run off; one needing approval is recorded and left; others are executed, and a request for a human ends the loop |
| `AiDesk.Desk.HandleCalls` | backend/apps/ai_runtime/services.py:580-636 | the loop over proposed calls stops at the first that ends it or raises, with everything before it done, and counts executions |
| `AiDesk.Desk.Generate` | backend/apps/ai_runtime/services.py:569-664 | the recursion through tool rounds terminates: a text completes the run, too many rounds or calls hand it off, calls left for approval make it wait, otherwise the provider is asked again |
| `AiDesk.Desk.CompleteText` | backend/apps/ai_runtime/services.py:684-786 | unsafe text hands off; otherwise autopilot sends at most one reply where it may, and else a draft is left; the run completes |
| `AiDesk.Desk.ProcessRun` | backend/apps/ai_runtime/services.py:406-554 | only a queued or running run is processed; a paused conversation or a human reply supersedes it; every way of raising ends it as the handlers say |
| `AiDesk.Desk.QueueRun` | backend/apps/ai_runtime/services.py:253-344 | refused while AI is paused, a handoff is unresolved, a run active or a draft pending; a known key returns its run; otherwise one queued run in the selected mode |
| `AiDesk.Desk.ActOnDraft` | backend/apps/ai_runtime/services.py:932-976 | a pending draft is rejected, or sent as one message and marked approved or edited; a stale one, an invalid body or a blocked send changes nothing |
| `AiDesk.Desk.ApproveCall` | backend/apps/ai_runtime/services.py:980-1012 | an awaiting call is executed; a tool error hands its run off; with no call left awaiting a waiting run completes with a draft; a crash changes nothing |
| `AiDesk.Desk.RejectCall` | backend/apps/ai_runtime/services.py:1015-1034 | an awaiting call becomes rejected and its run is handed off |
| `AiDesk.Desk.RequestHandoff` | backend/apps/ai_runtime/services.py:1057-1097 | a customer's request opens a handoff of no run when none is unresolved, and changes nothing otherwise |
| `AiDesk.Desk.Callback` | backend/apps/voice/services.py:729-736 | a voice callback opens a handoff whether or not one is unresolved |
| `AiDesk.Desk.UpdateHandoff` | backend/apps/ai_runtime/services.py:1101-1132 | an open handoff is acknowledged, an unresolved one resolved; anything else is refused |
| `AiDesk.Desk.Supersede` | backend/apps/ai_runtime/services.py:383-403 | active runs, pending drafts and open calls of those runs are closed, nothing else; a person taking over pauses the AI first |
| `AiDesk.Desk.SetState` | backend/apps/ai_runtime/services.py:1136-1214 | pausing and handing off cannot be set; turning off supersedes active work; otherwise only the state changes |
| `AiDesk.Desk.SetByChannel` | backend/apps/voice/services.py:516-518 | a channel turns the AI off or pauses it without superseding anything |
| `AiEndings.ProcessEnds` | backend/apps/ai_runtime/services.py:406-786 | for every provider, who is answered how by the last answer: one reply exactly for a safe text of a run on autopilot that the channel takes, one draft exactly for one of a completed run not on autopilot, the end of the reply sent before for a run that has replied, a person asked for an unsafe text or too many calls |
| `AiEndings.NotAskedIs` | backend/apps/ai_runtime/services.py:406-554 | a run that is over or waiting is left alone, one nobody wants answered is superseded, and an obstacle ends it by its kind and channel |
| `AiEndings.NothingUnsafeIsSent` | backend/apps/ai_runtime/services.py:702-718 | if no text the provider gives is safe, processing sends and drafts nothing |
| `AiEndings.UnsafeTextAsksForPerson` | backend/apps/ai_runtime/services.py:702-718 | processing that ends on an unsafe text leaves the run handed off with a handoff unresolved |
| `AiTools.ProposalNotRun` | backend/apps/ai_runtime/services.py:582-632 | a forbidden proposal is stored as rejected and a person asked, one to approve is stored and left, and one without an actor raises, none of them executed |
| `AiTools.ProposalRun` | backend/apps/ai_runtime/services.py:613-636 | one the AI may run by itself is run once under a new id, its handler's end decides, and a handoff asks for a person |
| `AiTools.ProposalOfStoredCall` | backend/apps/ai_runtime/tools.py:692-726 | under an id that is stored the stored call runs: not again once it has succeeded, refused while it executes, and otherwise it ends as its own tool and handler say |
| `AiTools.LoopInOrder` | backend/apps/ai_runtime/services.py:580-636 | the proposals are dealt with in order, up to the first that does not go through |
| `AiTools.ProcessLicensed` | backend/apps/ai_runtime/services.py:596-634 | a call that has succeeded in processing answers a proposal that validated, on automatic or always available, with an actor where it changes something |
| `AiEntries.QueuedIff` | backend/apps/ai_runtime/services.py:253-344 | a task is queued exactly while the AI is on, no person is waited for, and it is known or nothing else is under way |
| `AiEntries.QueuedRunIs` | backend/apps/ai_runtime/services.py:309-338 | a new one is a queued run, on autopilot exactly when that is selected and not ruled out |
| `AiEntries.DraftActedOnIff` | backend/apps/ai_runtime/services.py:932-960 | a draft is acted on exactly while pending, with no human reply, and to be sent with a valid body and an open channel |
| `AiEntries.DraftActedOn` | backend/apps/ai_runtime/services.py:945-976 | it is then refused, or marked and sent as one message |
| `AiEntries.ApprovedIff` | backend/apps/ai_runtime/services.py:980-1012 | a call is approved exactly while it waits, without a human reply and without a crash |
| `AiEntries.ApprovedAndRefused` | backend/apps/ai_runtime/services.py:995-1008 | one whose handler refuses has failed and a person is asked |
| `AiEntries.ApprovedAndDone` | backend/apps/ai_runtime/services.py:1009-1054 | one whose handler finishes has succeeded, and a waiting run with no other call to decide is completed with a draft |
| `AiEntries.RejectedIff` | backend/apps/ai_runtime/services.py:1015-1034 | a call is rejected exactly while it waits, and a person is asked |
| `AiEntries.UpdateAcceptedIff` | backend/apps/ai_runtime/services.py:1101-1132 | an update of a handoff is accepted exactly when it changes the status of one that is there, or assigns it, and a refused one changes nothing |
| `AiEntries.HandoffChangesIff` | backend/apps/ai_runtime/services.py:1101-1132 | whatever happens, a handoff changes exactly by being acknowledged while open or resolved while not resolved |
| `AiEntries.CustomerAsks` | backend/apps/ai_runtime/services.py:1057-1097 | a customer's request opens a handoff unless one is open, a voice callback in any case |
| `AiEntries.SupersededRows` | backend/apps/ai_runtime/services.py:383-403 | supersession closes active runs, pending drafts and their undecided calls, row by row, and nothing else |
| `AiEntries.StateSetIff` | backend/apps/ai_runtime/services.py:1136-1214 | a state is set exactly when it is off, suggesting or autopilot and not refused, and turning off supersedes |
| `AiEntries.StateAfter` | backend/apps/ai_runtime/services.py:1080-1204 | the AI's state after any event whatever |
| `AiSafety.ProcessingIsBounded` | backend/apps/ai_runtime/services.py:569-664 | for any provider at most max_tool_rounds + 1 generations and max_tool_rounds times the calls allowed in one answer executions |
| `AiSafety.RunCallsWithin` | backend/apps/ai_runtime/services.py:580-634 | the tool loop changes nothing but its run, that run's calls and at most one handoff, which marks the run |
| `AiSafety.HandoffSilencesAutopilot` | backend/apps/ai_runtime/services.py:789-840 | a run that opens a handoff while it is processed sends no autopilot reply |
| `AiSafety.StepOrderly` | backend/apps/ai_runtime/services.py:253-1214 | every entry point keeps the protocol's invariant |
| `AiSafety.SingleWorkItem` | backend/apps/ai_runtime/models.py:186-198 | in any run active runs plus pending drafts are at most one |
| `AiSafety.OneHandoffIff` | backend/apps/voice/services.py:729-736 | all along a run at most one handoff is unresolved exactly when no voice callback comes while one is |
| `AiSafety.NoReplyByHandedOffRun` | backend/apps/ai_runtime/services.py:789-840 | in any run no AI run has both opened a handoff and sent an autopilot reply, in whatever order |
| `AiSafety.OneReplyPerRun` | backend/apps/ai_runtime/services.py:844-849 | in any run an AI run sends at most one autopilot reply |
| `AiDrafts.AlwaysAnswered` | backend/apps/ai_runtime/services.py:752-757 | in any run no AI run has two drafts |
| `AiDrafts.OneMessagePerAcceptedDraft` | backend/apps/ai_runtime/services.py:932-976 | in any run each approved or edited draft has put exactly one message into the conversation, any other draft none, and every message sent from a draft has one |
| `AiSafety.SucceededCallIsFinal` | backend/apps/ai_runtime/tools.py:698-701 | nothing reopens a tool call that has succeeded, and executing it again has no effect |
| `AiFreshCalls.ProcessedRunIsDone` | backend/apps/ai_runtime/services.py:406-554 | with call ids never used twice, processing leaves the stored run neither queued nor running |
| `AiWaiting.NoRunWaitsForNothing` | backend/apps/ai_runtime/services.py:638-650 | in any run in which call ids are new, a run that waits for approval has a call awaiting it |
| `AiCallIds.AlwaysUniqueCalls` | backend/apps/ai_runtime/models.py:244 | in any run, whatever ids the provider uses, no AI run has two calls under one id |
| `AiUsedIds.HandoffTakesEffectIff` | backend/apps/ai_runtime/services.py:613-636 | a request for a human that ends processing hands the run off exactly when its id is new or still to run a handoff |
| `AiUsedIds.LeftRunningIff` | backend/apps/ai_runtime/services.py:406-554 | processing leaves the stored run running exactly when the call that ended it was a valid request for a human under the id of a call that will not hand off any more, with nothing handed off before |
| `AiUsedIds.ReusedIdLeavesRunning` | backend/apps/ai_runtime/services.py:613-636 | a concrete run left running, without a handoff, because the provider reused a call id |
| `AiUsedIds.RoundAwaitsIff` | backend/apps/ai_runtime/services.py:613-630 | after a tool round that goes through a call awaits approval exactly when it did or was newly proposed for approval and no proposal of the round executed it |
| `AiUsedIds.LeftWaitingIff` | backend/apps/ai_runtime/services.py:636-650 | processing leaves a run waiting with no call to approve exactly when the round that made it wait leaves no id awaiting |
| `AiUsedIds.StuckUnlessSuperseded` | backend/apps/ai_runtime/services.py:383-403 | a run waiting for nothing stays so under every event but supersession, and no run can be queued meanwhile |
| `AiUsedIds.WaitsForNothingIff` | backend/apps/ai_runtime/services.py:406-1214 | in any run an AI run waits with nothing to approve exactly when processing stranded it so and nothing has superseded it since |
| `AiUsedIds.ReusedIdWaitsForNothing` | backend/apps/ai_runtime/services.py:613-630 | a concrete run waiting with no call to approve, because the provider asked for approval under the id of an earlier lookup |

## Left out

- Assumed of a booking run: the clock read by the transactions does not go back, and catalog (staff maxima, resource
  capacities, services, buffers, policies) stays fixed; schedules, breaks and exceptions may change with every transaction.
- Entitlement checks, permissions, two-person approval and public tokens: their outcome is an input (`entitled`, `refusal`,
  `tokenError`), because they read state outside these machines.
- Lookups of a request's branch and service by `slots`, contacts and their identities on holds and appointments, prices and
  other snapshots, notes, reminders, events, CRM activity, notifications, audit rows: nothing the properties depend on.
- Interleavings inside a transaction, advisory locks and SQL: transactions are atomic steps, unique constraints abort them.
- Overflow of dates past the year 9999 outside `_period_end`: grace ends and due dates just become undefined there.
- `resolve_policy` picks among several policies of one scope by model ordering; the model allows one policy a scope.
- Staff and resources are listed in the order their queries return them; their ids are integers, so slots of one start are
  ordered by integer id where the code orders by the text of a UUID.
- Identities.NormalizeIsIdempotent: `strip`, case folding and digits are those of ASCII, where the code's are Unicode's.
- Identities.SamePhoneIff: the same; so is the `strip` of wallet keys.
- Quantities and usage are exact `real` numbers; the six decimal places of the stored columns are not modelled.
- BookingLogs.BuffersKept: says nothing about staff with several places, for whom bookings may overlap by design.
- BookingLogs.BuffersKept: requires replays to spare the gaps; `BookingLogs.LogApartIff` shows that otherwise they are lost.
- BookingLogs.StaffNeverOverbooked: requires replays to spare the limits; `BookingLogs.LogSafeIff` shows that otherwise some
  claim exceeds its limit.
- BookingLogs.ResourceNeverOverused: the same.
- Two requirements of one service that pick the same resource: the allocation is modelled as the code makes it, and the
  unique constraint refuses the hold.
- InvoiceAccounts.StepConsistent: requires reversals to come under unused keys; `InvoiceConservation.ReversalBooksIff` says
  what the others do.
- BillingLife.FreshKeysKeepVoid: requires fresh reversal keys; `BillingLife.StaysVoidIff` is the exact condition for all runs.
- BillingDesk.Desk.Lifecycle: one subscription, so the cut at five hundred rows does not show, and not the last loop, which
  applies scheduled plan changes.
- The retry of due invoices that follows a credit runs after its commit and is an event of its own.
- Several currencies and several subscriptions of one organization: one wallet and one subscription are modelled; external
  providers, checkout and scheduled plan changes are not.
- Billing operations besides these: `cancel_subscription`, `resume_subscription`, plan publishing and previews are guards
  around single fields.
- Overage.TotalIsMonotone: requires non-negative rates, as `calculate_overage` accepts any integer.
- The total of a generated invoice is an input of `Invoices.Renew`; `Overage` computes it from the usage aggregates.
- ContactDesk.Desk.AddRecord: what a note, conversation, lead or task holds besides its contact is not modelled, nor tasks
  that name none.
- AI runs: the autopilot states of the channels are one state; prompt building, limits, context checks, `validate_arguments`,
  text validation and the tool handlers decide freely (`obstacle`, `valid`, `outcome`, `safe`), and so does sending.
- AiFreshCalls.ProcessedRunIsDone: requires call ids that are never used twice; `AiUsedIds.LeftRunningIff` says what others do.
- AiWaiting.NoRunWaitsForNothing: the same; `AiUsedIds.WaitsForNothingIff` is the exact condition for all runs.
- AiSafety.SingleWorkItem: handoffs are counted by `AiSafety.OneHandoffIff`; the writers of a conversation's AI rows outside
  the runtime are the voice callback and the two channel writes of its state, which are events here.
- Token generation, hashing, waitlists, reminder delivery, dashboards and exports: no state these properties depend on.
