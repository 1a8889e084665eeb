# PayLink emulator: a verified model

This project models the parts of the PayLink payment emulator whose correctness is not visible in any
one function, and proves what they promise for every input, every run and every interleaving.
`dafny verify dfyconfig.toml` checks all of it.

**The payment engine** (`crates/core/src/lib.rs`). A discrete-event scheduler moves many operations
through Connecting, AwaitingCard, AwaitingCustomer, Authorizing and AwaitingConfirmation to an outcome,
against per-stage delays and a hard deadline, beside manual inputs, a scenario queue with use counts, a
journal and charge counters. `EngineModel` gives every public call a pure meaning; `EngineObject` is the
engine as it runs, an object updated in place, each method proved to have exactly that meaning. On the
meaning rest `EngineClock` (clock granularity, independence of the interleaving, the closed-form
timeline), `EngineInvariants` (what every step keeps), `EngineRuns` (money, deadlines and journal over
whole runs), `EngineLedger` (scenario uses), `EngineIdentity` (ids, references, undisturbed payments),
`EngineJournal` (the journal replayed), `EventReader` (the journal read through its cursor),
`EngineTerms` (what a call may change in a payment), `EngineConduct` (what the clock, every input and every
purchase request lead to) and `OperationIds` (printing, parsing and ordering ids).

**The control server** (`crates/server/src/lib.rs`). `ControlPlane` holds the command handler, as a
meaning and as the object that updates engine, scenarios and remembered commands; `ControlRuns` proves
that commands apply at most once, `ControlConduct` what each is answered and does.

**The payment listener** (`crates/server/src/wire.rs`). `PaymentWire` is a transition system whose steps
are taken in any order: a control command under the lock, the send on the reset watch, the listener's
wake-up, join, read and publication, accepting and tagging a socket, a connection's purchase, poll,
answer and delivery mark, a clock tick, a transport switch, an abort. `ListenerOrder` is about the order
in which generations are published, `WireMoney` and `WireAnswers` about the payments behind the answers
and what every answer says. `RequestReader` is
the request parser.

**The SSI side** (`scripts/ssi`). `SsiCodec` is the length-prefixed, checksummed framing of SSI ECR JSON
1.4.6, sections 1.2 and 1.3, at byte level; `SsiTerminal` the timed terminal, `SsiConduct` what its requests lead to; `SsiServer` the sockets
that answer one frame at a time in fragments, as a transition system.

**The reference normaliser** (`scripts/normalize-reference.mjs`) is `ReferenceNormalizer`.

Several modules give an operation its meaning as a function and the object that carries it out a proof
against that function. The `Conduct` modules and `WireAnswers` then say what the meaning itself leads to, in
terms of the payment, the request and the journal, without the functions that compute it.

## Findings

Where the proofs show the code to differ from what its comments or documents say, the code is modelled
as it is and the difference is a lemma.

- A comment at `crates/core/src/lib.rs:535` allows six scheduled transitions per operation;
  `EngineClock.FewTransitions` shows there are never more than five.
- A rejected control command leaves everything as it was, except exactly a purchase that reached the
  engine: its request has been counted and logged, so sending it again counts again
  (`ControlRuns.RejectionTrace`; `ControlRuns.RejectedPurchaseIsCounted` is such a purchase).
- What is read of a request depends on TCP segmentation for exactly the streams whose head ends more than
  16385 and at most 17408 bytes in (`RequestReader.ReadingIndependentExactly`);
  `RequestReader.LongRequestIsReadBothWays` is one, ending at 16386.
- `reset({preserve_result: true})` discards a finished operation that nobody has polled. Polling is
  unobservable along a run if and only if none of its preserving resets meets such an operation
  (`SsiTerminal.PollsAreHarmlessExactly`); `SsiTerminal.ApprovalLostUnlessPolled` is an approval lost.
- A path listed twice makes the normaliser hide the difference between a number and a string, unless it is
  transactionUid, whose value the id repeats. A list hides exactly the values of its fields if and only if
  it names no other field twice, or is refused outright (`ReferenceNormalizer.HidesExactlyWhen`).
- The generation the listener publishes can fall: `ListenerOrder.PublishedGenerationFalls` is a run from
  the start, with two resets whose watch sends are reordered. It never falls while every reset is sent over
  an older generation, and a send is harmless exactly then (`ListenerOrder.SendIsHarmlessExactly`).
  Connection isolation holds all the same.
- The SSI server's generation guards never decide anything on a live socket, because a reset destroys
  every socket first (`SsiServer.LiveIsCurrent`).
- Retrieval reference numbers coincide across operations: operation 1,000,001 of one generation shares its
  number with operation 1 of the next, and every operation with the one of the same number a million
  generations later (`EngineIdentity.ReferencesCanCollide`).
  `EngineIdentity.ReferencesDistinct` says for which generations and numbers they do.
- The event feed sets exactly the clients that are ahead of the journal back to a smaller cursor
  (`EventReader.CursorIsSetBack`, `EventReader.SetBackToOne`). A client that reads twice misses events if and
  only if some reset in between found something logged since its first read
  (`EventReader.ResetsLoseExactly`; `EventReader.ResetTakesAnEvent` is such a run), and a loss always shows
  as a gap in the cursors (`EventReader.LossShowsAsAGap`).

## Model

| member | source | states |
|---|---|---|
| EngineClock.GranularityUnobservable | crates/core/src/lib.rs:530-551 | advancing by a and then by b leaves the whole engine (operations, counters, journal, cursors, clock) as advancing by a + b does |
| EngineClock.AnyPartitionOfTime | crates/core/src/lib.rs:530-551 | any list of clock ticks that does not overflow has the effect of one advance by their sum; no tick at all is no advance where nothing is due, as between public calls |
| EngineClock.DrainEnds | crates/core/src/lib.rs:536-549 | when the loop ends nothing is due by the target, the clock has not passed it, and devices, queue, ids and generation are untouched |
| EngineClock.NextUnique | crates/core/src/lib.rs:537-542 | the minimum of (due time, id) is one operation, whatever target it is taken for |
| EngineClock.InterleavingIsIndependent | crates/core/src/lib.rs:536-548 | any scheduler that fires some earliest operation, with any tie-break, leaves every operation as if run alone to the target, and adds one approval per operation that charges |
| EngineClock.AdvanceRefinesIndependentRuns | crates/core/src/lib.rs:530-551 | the engine's own loop is such a scheduler: its operations are the independently simulated ones and its counters their sum |
| EngineClock.FewTransitions | crates/core/src/lib.rs:535-548 | in any schedule an operation is fired no more often than its stage's rank fell, five times at most |
| EngineModel.FireLowersRankSum | crates/core/src/lib.rs:536-548 | each turn of the loop lowers the sum of stage ranks, so the loop terminates |
| EngineClock.ClosedFormTimeline | crates/core/src/lib.rs:483-529 | an automatic operation the bank decides by itself follows the closed form: its outcome at the start plus the delays through the deciding stage if that is before the timeout, otherwise, ties included, a timeout exactly at the deadline |
| EngineIdentity.UntouchedPaymentKeepsItsTimeline | crates/core/src/lib.rs:374-551 | an accepted payment nobody acts on keeps that timeline through any run of other payments, arming, reconfiguration and ticks |
| EngineConduct.WaitingStaysUntilDeadline | crates/core/src/lib.rs:483-507 | a payment that waits for a hand (bank by hand, or card, customer and terminal in manual mode) is left exactly as it is by any run that does not touch it until its deadline, and timed out exactly there |
| EngineConduct.TimedStageEndsAfterItsDelay | crates/core/src/lib.rs:483-529 | every other stage ends after its own delay, by the scenario's failure or in the stage that follows, if that is before the deadline, and by a timeout otherwise |
| EngineConduct.ClockFollowsCourse | crates/core/src/lib.rs:530-551 | `advance` takes every operation, whatever its scenario, along that course to the target and adds or removes none |
| EngineConduct.RunFollowsCourse | crates/core/src/lib.rs:483-551 | so does any run of calls that do not name the operation |
| EngineConduct.StartedOnItsCourse | crates/core/src/lib.rs:442-463 | an accepted payment of any scenario starts on its course from Connecting at the present clock |
| EngineConduct.WhatInputsDo | crates/core/src/lib.rs:552-603 | for every stage and input: refused as an invalid transition exactly where it is not welcome, otherwise the payment it leads to, every other payment untouched, that payment's device alone put offline by a disconnection, and the input logged |
| EngineConduct.BankDecides | crates/core/src/lib.rs:561-568 | a bank approval by hand charges the payment at once, a bank refusal declines it uncharged |
| EngineConduct.HandsAreShown | crates/core/src/lib.rs:483-603 | after any run no payment stands past a stage that waits for a hand without that input in the journal: a payment with a bank by hand is charged only after a logged BankApproved and never after a logged BankDeclined, and a reversal was asked for |
| EngineConduct.StartAdmittedExactly | crates/core/src/lib.rs:386-441 | a purchase is accepted exactly when the device is known and reachable, the amount in range, the merchant its own, no payment under way on it and its first queued scenario suits and is not cut off; otherwise it meets the first of these that fails |
| EngineConduct.ArmedBehind | crates/core/src/lib.rs:334-345 | a scenario is armed exactly when it is valid for a known device, behind every other of its device, with other devices' entries as they were |
| EngineConduct.ValidIsByTheRules | crates/core/src/lib.rs:152-218 | a scenario is valid exactly when it meets the stated bounds on id, uses, times, failure stage, error and reference case |
| EngineConduct.ConfiguredExactly | crates/core/src/lib.rs:346-373 | a device is configured exactly when it is named in full, shows no undocumented setup error and takes no payment; then it alone changes |
| EngineConduct.NewEngineAdmits | crates/core/src/lib.rs:230-309 | a new engine, and one just reset, arms a scenario that meets the rules for its one device and for no other, and then accepts there exactly the purchases that fit it |
| EngineConduct.DeliveredExactly | crates/core/src/lib.rs:604-618 | a payment is marked answered exactly when it has ended; the first time it is counted and logged, and nothing else changes then or later |
| EngineIdentity.RunLeavesAlone | crates/core/src/lib.rs:483-551 | calls that do not name an operation leave it as if it had run alone to the present clock |
| EngineIdentity.AloneComposes | crates/core/src/lib.rs:483-529 | running one operation alone to an instant and on to a later one is running it to the later one |
| EngineInvariants.SoundAlone | crates/core/src/lib.rs:483-529 | a sound operation stays sound as time passes, is never reversed or revived by time, and is left not yet due |
| EngineInvariants.InputIsOrderly | crates/core/src/lib.rs:552-603 | a permitted manual input before the due time leaves the operation sound, the scenario's failure included, and never takes back a payment, a reversal or a delivery |
| EngineInvariants.AdvanceKeeps | crates/core/src/lib.rs:530-551 | the clock keeps the whole invariant and leaves nothing due |
| EngineInvariants.AcceptKeeps | crates/core/src/lib.rs:430-461 | an accepted purchase keeps the invariant: fresh id, idle device, use taken, counters and journal in step |
| EngineInvariants.ActKeeps | crates/core/src/lib.rs:552-603 | a manual input keeps the invariant |
| EngineInvariants.DeliverKeeps | crates/core/src/lib.rs:604-618 | marking a delivery keeps the invariant |
| EngineInvariants.ResetSettles | crates/core/src/lib.rs:619-630 | a reset establishes the invariant from any state |
| EngineRuns.StartSettles | crates/core/src/lib.rs:374-464 | a purchase, however it ends, keeps the invariant with nothing left due |
| EngineRuns.FreshSettles | crates/core/src/lib.rs:293-309 | a new engine, with or without an epoch, satisfies the invariant |
| EngineRuns.ApplySettles | crates/core/src/lib.rs:334-630 | every public call does |
| EngineRuns.MoneyConserved | crates/core/src/lib.rs:465-482 | after any run an operation is charged exactly while Approved, approvals and reversals count exactly the operations paid and returned, deliveries the terminal ones delivered, and delivered ≤ accepted = number of operations ≤ requests |
| EngineRuns.FailuresNeverCharge | crates/core/src/lib.rs:502-529 | over any mix of ticks and inputs an operation with an Error outcome, or a Declined one without a manual bank, is never charged, approved or reversed |
| EngineRuns.DeadlinesRespected | crates/core/src/lib.rs:483-551 | between calls every active operation's due time and deadline lie ahead, completions other than reversals respect the deadline, nothing is charged at it, and a device has one active operation at most |
| EngineRuns.JournalTellsAll | crates/core/src/lib.rs:315-333 | replaying the event log of any run gives each operation's stage and charge and all five counters |
| EngineRuns.HistoryInOrder | crates/core/src/lib.rs:315-333 | over a whole run, resets included, cursors rise by exactly one and the calendar time, for an engine that has one, never goes back |
| EngineRuns.EmittedInOrder | crates/core/src/lib.rs:619-630 | one call's entries continue cursors and calendar, also across the reset that zeroes the clock |
| EngineRuns.CallGrows | crates/core/src/lib.rs:315-333 | a call other than a reset only appends to the journal, with consecutive cursors and times in order |
| EngineRuns.RefusalsAreHarmless | crates/core/src/lib.rs:374-441 | a refused call changes nothing, except that a refused purchase is counted and logged, and nothing more unless it disconnects |
| EngineJournal.DrainIsRead | crates/core/src/lib.rs:465-551 | the journal stays complete through every turn of the scheduler |
| EngineJournal.TransitionIsRead | crates/core/src/lib.rs:465-482 | a transition's entry, read back, makes exactly that transition's change to stage, charge and counters |
| EngineLedger.UsesConserved | crates/core/src/lib.rs:334-345 | since the last reset, uses armed are uses still queued plus operations accepted plus disconnects before acceptance |
| EngineLedger.CallBalance | crates/core/src/lib.rs:374-464 | only arming raises that balance and only a reset clears it |
| EngineLedger.StartIsFifo | crates/core/src/lib.rs:413-441 | a purchase that is accepted or disconnected takes one use from the device's own earliest entry and touches no other device's entries; any other refusal leaves the queue alone |
| EngineLedger.SpendIsFifo | crates/core/src/lib.rs:430-434 | taking a use acts on the head of the device's own subqueue, in place |
| EngineIdentity.KeysAreThePrintedIds | crates/core/src/lib.rs:442-460 | after any run an id names an operation exactly when it was printed from a number below the next one in the present generation |
| EngineIdentity.IdsNeverRepeat | crates/core/src/lib.rs:442-444 | no id is handed out twice in a run, resets included |
| EngineIdentity.OldIdsAreUnknown | crates/core/src/lib.rs:619-630 | an id of any other generation names no operation |
| EngineIdentity.ReceiptNamesItsOperation | crates/core/src/lib.rs:645-679 | the receipt of an approved operation carries the number its id was printed from, the reference of that number, and the amount asked for |
| EngineConduct.ReceiptTells | crates/core/src/lib.rs:631-690 | the receipt of a finished payment is its recorded case, its error, or an approval whose authorisation code is the reference with the seed folded in and whose time is the calendar time of completion |
| EngineIdentity.ReferencesCollideExactly | crates/core/src/lib.rs:652-666 | two references are equal exactly when their wrapping 64-bit serials agree modulo 10^12 |
| EngineIdentity.ReferencesDistinct | crates/core/src/lib.rs:652-666 | for any generations and numbers whose serials fit 64 bits, references coincide exactly when a million times the generations' difference makes up for the numbers' difference, modulo 10^12; for numbers less than a million apart, exactly for equal numbers a multiple of a million generations apart |
| EngineIdentity.ReferencesCanCollide | crates/core/src/lib.rs:652-666 | operation 1,000,001 of generation 1 shares its reference with operation 1 of generation 2, and operation 1 of generation 1 with that of generation 1,000,001 |
| EngineTerms.CallFollows | crates/core/src/lib.rs:334-603 | no call but a reset or a delivery removes a payment, alters its terms, takes back that it was paid, or marks a response as delivered |
| EngineTerms.StartedTerms | crates/core/src/lib.rs:442-463 | an accepted purchase is present under the next id with the device, the amount and the merchant of its device, not yet delivered |
| EngineTerms.EntriesNameTheirPayment | crates/core/src/lib.rs:315-333 | after any run every journal entry about a payment names one that is there, under its device and its scenario, and no other entry names any |
| OperationIds.NumberRoundTrips | crates/core/src/lib.rs:646-651 | splitting a printed id at its last separator and parsing gives back the operation number |
| OperationIds.PrintInjective | crates/core/src/lib.rs:442 | equal printed ids come from the same generation and number |
| OperationIds.AtMostTotal | crates/core/src/lib.rs:537-542 | the id order used as tie-break is total |
| OperationIds.AtMostAntisymmetric | crates/core/src/lib.rs:537-542 | and antisymmetric |
| OperationIds.AtMostTransitive | crates/core/src/lib.rs:537-542 | and transitive |
| OperationIds.FirstDifferenceDecides | crates/core/src/lib.rs:537-542 | the first differing character decides the order, and a beginning comes before its continuations |
| OperationIds.TenthBeforeSecond | crates/core/src/lib.rs:537-542 | so of two payments due together the tenth of a generation goes before its second |
| EventReader.PollingCollectsTheJournal | crates/server/src/lib.rs:281-283 | between resets a client that polls from its last cursor collects every event exactly once and in order, however its reads are spaced |
| EventReader.ClientSeesTheWholeJournal | crates/server/src/lib.rs:281-283 | without a reset a client that polls from cursor 0 of a new engine collects its whole journal |
| EventReader.ReadCatchesUp | crates/server/src/lib.rs:281-283 | across any calls an up-to-date client gets an end of what was logged, and has missed something exactly when its first new cursor is not the next one |
| EventReader.LossShowsAsAGap | crates/server/src/lib.rs:281-283 | for a client that reads at any two moments of any run of a new engine, what it gets is an end of what was logged in between, and a gap in the cursors tells exactly whether it is all of it |
| EventReader.ReadIsWholeExactly | crates/server/src/lib.rs:281-283 | an up-to-date client that reads again after any calls gets all that was logged if and only if every reset among them found nothing logged since its read |
| EventReader.ResetsLoseExactly | crates/server/src/lib.rs:281-283 | the same for a client that reads at any two moments of any run of a new engine |
| EventReader.CursorIsSetBack | crates/server/src/lib.rs:281-283 | in every reachable state exactly a client ahead of a journal that has entries is given a smaller cursor |
| EventReader.SetBackToOne | crates/server/src/lib.rs:281-283 | after one reset a client that asks beyond cursor 5 is given cursor 1 |
| EventReader.ResetTakesAnEvent | crates/server/src/lib.rs:281-283 | a run of a new engine, a refused purchase and a reset: two events logged, and a client that had read nothing gets event 2 alone |
| EngineObject.Engine.constructor | crates/core/src/lib.rs:293-309 | a new engine is the fresh state and satisfies the invariant |
| EngineObject.Engine.WithEpoch | crates/core/src/lib.rs:311-314 | setting the calendar epoch of any engine changes nothing else and keeps the invariant |
| EngineObject.Engine.Log | crates/core/src/lib.rs:315-333 | appends exactly one entry, stamped with cursor, generation, clock, calendar and the operation's data |
| EngineObject.Engine.Arm | crates/core/src/lib.rs:334-345 | refusals in order, otherwise log and queue; the invariant stands |
| EngineObject.Engine.SetDevice | crates/core/src/lib.rs:346-373 | refusals in order, otherwise log and insert; the invariant stands |
| EngineObject.Engine.NextDue | crates/core/src/lib.rs:537-545 | the walk over all operations finds the least (due time, id) due by the target, or that there is none |
| EngineObject.Engine.Transition | crates/core/src/lib.rs:465-482 | stage, times, error, charge, counters and log entry of a transition |
| EngineObject.Engine.Step | crates/core/src/lib.rs:502-529 | timeout first, then the scenario's failure, then the next stage |
| EngineObject.Engine.RunTo | crates/core/src/lib.rs:536-548 | the event loop terminates in the state the recursive scheduler defines |
| EngineObject.Engine.Advance | crates/core/src/lib.rs:530-551 | refused on overflow with nothing changed, otherwise the loop run to the target |
| EngineObject.Engine.Tick | crates/core/src/lib.rs:530-551 | the same as a public call, keeping the invariant |
| EngineObject.Engine.Admit | crates/core/src/lib.rs:386-429 | the first refusal that applies, in the order of the code, or the position of the scenario to spend |
| EngineObject.Engine.TakeUse | crates/core/src/lib.rs:430-434 | one use taken, the entry removed on its last |
| EngineObject.Engine.Accept | crates/core/src/lib.rs:442-461 | the new operation under the next id, counted and logged |
| EngineObject.Engine.Start | crates/core/src/lib.rs:374-464 | a purchase from request count to first clock turn; the id returned is the next id; the invariant stands |
| EngineObject.Engine.Perform | crates/core/src/lib.rs:583-601 | a permitted input logged and carried out, or the scenario's failure in its place |
| EngineObject.Engine.Act | crates/core/src/lib.rs:552-603 | unknown and forbidden inputs refused, others carried out; the invariant stands |
| EngineObject.Engine.Delivered | crates/core/src/lib.rs:604-618 | unknown and unfinished operations refused, the first delivery counted and logged, later ones nothing; the invariant stands |
| EngineObject.Engine.Reset | crates/core/src/lib.rs:619-630 | a new generation with the calendar carried on and cursors continuing, from any state |
| ControlPlane.ControlServer.constructor | crates/server/src/lib.rs:132-149 | the server starts with a new engine that has a calendar epoch and with nothing saved or remembered |
| ControlPlane.ControlServer.Command | crates/server/src/lib.rs:309-510 | the object's new state and reply are the handler's meaning; what it announces after the lock (new generation, transport) it announces only when the command is carried out, never for a retry |
| ControlPlane.ControlServer.Work | crates/server/src/lib.rs:352-478 | every command resource, with engine, scenarios and remembered commands as it leaves them |
| ControlPlane.ControlServer.Operate | crates/server/src/lib.rs:378-438 | the same for the commands about payments and the clock |
| ControlPlane.ControlServer.StartStandalone | crates/server/src/lib.rs:390-416 | armed and started on a copy that replaces the engine only when both succeed |
| ControlPlane.ControlServer.Confirm | crates/server/src/lib.rs:462-475 | the loop over asserted counters succeeds exactly when all of them match |
| ControlPlane.ExecuteSettles | crates/server/src/lib.rs:309-485 | a command, however it ends, keeps the engine's invariant |
| ControlRuns.RejectionTrace | crates/server/src/lib.rs:480-483 | a rejected command leaves all data as it was if and only if it is not a purchase that reached the engine |
| ControlRuns.RejectedPurchaseIsCounted | crates/server/src/lib.rs:380-389 | a purchase on a server just started is rejected and counted, and sent again counted again |
| ControlRuns.StandaloneIsAtomic | crates/server/src/lib.rs:390-416 | a standalone start is all or nothing; on success the new payment under the next id runs the given scenario on its device for the amount asked, and only that scenario's remaining uses are queued for the device |
| ControlRuns.ExecuteFollows | crates/server/src/lib.rs:352-485 | a command begins a new generation or leaves every payment in place under its terms with no delivery marked |
| ControlRuns.AppliedIsRemembered | crates/server/src/lib.rs:484-485 | a command that is carried out is remembered with its result, a reset included |
| ControlRuns.ResendIsAnsweredFromMemory | crates/server/src/lib.rs:331-341 | a remembered command sent again returns the stored result, or conflicts on other content, and changes nothing, whatever generation it names |
| ControlRuns.StaysRemembered | crates/server/src/lib.rs:329-485 | through any later commands, ticks, payments and deliveries short of an applied reset |
| ControlRuns.RetryChangesNothing | crates/server/src/lib.rs:329-348 | in any run a retry returns the first result and changes nothing; a retried reset does not reset twice |
| ControlRuns.ConflictChangesNothing | crates/server/src/lib.rs:331-341 | in any run the id of an applied command sent again with other content, at any later point short of an applied reset, is refused and changes nothing |
| ControlRuns.RetriesLeaveNoTrace | crates/server/src/lib.rs:329-348 | a run ends in the same state as that run with all its retries left out |
| ControlConduct.TurnedAwayExactly | crates/server/src/lib.rs:322-348 | ill-formed ids, conflicts and stale generations are answered exactly for what they are and change nothing; nothing is carried out that names another generation |
| ControlConduct.CarriedOutInItsGeneration | crates/server/src/lib.rs:342-348 | in any run a command naming a generation is carried out only in that generation |
| ControlConduct.ResetShutsOutOldCommands | crates/server/src/lib.rs:342-348 | at any point after an applied reset an unremembered command naming an earlier generation is stale, or ill-formed, and changes nothing |
| ControlConduct.AnnouncedResetShutsOutOldCommands | crates/server/src/lib.rs:342-348 | so it is in every interleaving with listener, connections and clock once the reset is carried out, at whatever point of its announcement |
| ControlConduct.CommandIsItsCall | crates/server/src/lib.rs:352-451 | a command that is not turned away and stands for an engine call is that call, done exactly when the call meets no fault; a clock command only under a controlled clock and by an hour at most; a reset forgets saved scenarios |
| ControlConduct.RepliesTell | crates/server/src/lib.rs:352-503 | the reply to what is carried out tells the state it left: the queue's length, the id of the payment it put there, the clock, the new generation; only a reset announces a generation, and transport is asked for by a reset, online, or as a transport command says |
| ControlConduct.AssertionPassesExactly | crates/server/src/lib.rs:452-477 | an assertion passes exactly when queue, idleness and every counter are as asserted, and changes nothing |
| ControlConduct.SavedIsArmedAlike | crates/server/src/lib.rs:353-375 | a scenario is saved exactly when it meets the rules; arming it by id is then arming it directly |
| ControlConduct.StandaloneExactly | crates/server/src/lib.rs:390-416 | a standalone start succeeds exactly when nothing is queued for the device, the scenario meets the rules and a purchase would be admitted with it |
| PaymentWire.InitialIsSafe | crates/server/src/lib.rs:132-149 | the server as started satisfies the joint invariant |
| PaymentWire.StepKeeps | crates/server/src/wire.rs:30-59 | every step of every task keeps the invariant of engine, listener, connections and log together |
| PaymentWire.NoStaleConnection | crates/server/src/wire.rs:30-59 | in every interleaving each live connection's tag is at least the published listener generation and every acknowledged reset, and at most the engine's generation |
| PaymentWire.AcknowledgedResetIsFinal | crates/server/src/lib.rs:487-503 | once a reset to g is acknowledged, nothing of a connection tagged before g is ever started, answered, refused or marked again |
| PaymentWire.PaymentsStayWithTheirConnection | crates/server/src/wire.rs:398-503 | a connection tagged k only starts, answers for and marks payments of generation k; each is started, answered and marked at most once; answers follow their start and marks a whole answer |
| PaymentWire.ApprovalsNameTheirPayment | crates/server/src/wire.rs:435-503 | every approval answered names number and reference of the payment its connection started, and the amount that connection asked for |
| WireMoney.ApprovalsArePaid | crates/server/src/wire.rs:435-490 | every approval ever answered whose payment the engine still knows stands for a payment that is Approved, or Reversed since, in the amount answered |
| WireMoney.AnsweredIsOver | crates/server/src/wire.rs:446-496 | in any run a payment whose full answer has been written is over and not yet marked, as long as the engine knows it |
| WireMoney.StepStaysCovered | crates/server/src/wire.rs:398-503 | every step of every task keeps that so, for answers given and answers in hand |
| WireAnswers.AnswersAreRight | crates/server/src/wire.rs:435-490 | every answer ever given: at an earlier point of the run the payment was finished, its response delay past, and the answer is the one its delivery fault, recorded case and outcome call for; hanging and cut-off payments are never answered |
| WireAnswers.FullAnswersHaveTheirStatus | crates/server/src/wire.rs:471-495 | every answer in full is a whole receipt, a recorded reference case under status 503 and an approval or rejection under 200 |
| WireAnswers.ApprovalsWereApproved | crates/server/src/wire.rs:435-490 | every approval ever answered was given for a payment the engine held as Approved in that amount, whatever has become of it since |
| WireAnswers.PollDoesExactly | crates/server/src/wire.rs:435-490 | a poll ends, waits, hangs or has the right answer in hand exactly as the payment's state, clock and delivery say |
| WireAnswers.WriteDoesExactly | crates/server/src/wire.rs:471-496 | a write tells the one refusal or answer in hand and ends the connection, unless the answer is in full, which is still to be marked |
| WireAnswers.MarkDoesExactly | crates/server/src/wire.rs:492-496 | in any run a payment answered in full, unless a reset has taken it, is marked as delivered, was not before, and is counted once; whatever happened in between |
| WireAnswers.CheckDoesExactly | crates/server/src/wire.rs:428-434 | a payment to be cut off after acceptance ends its connection, any other is polled |
| WireAnswers.PurchaseDoesExactly | crates/server/src/wire.rs:398-427 | a purchase on a connection of another generation does nothing but end it; otherwise it is a start, held, ended or refused for the first hurdle |
| PaymentWire.DeliveredCountsWholeAnswers | crates/server/src/wire.rs:491-495 | the engine's delivery counter is always the number of payments of its generation marked by connections, each after its whole answer |
| PaymentWire.HeldIsCurrent | crates/server/src/wire.rs:435-447 | a held id that the engine still knows belongs to the engine's generation |
| PaymentWire.PurchaseKeeps | crates/server/src/wire.rs:398-429 | a purchase on a connection, dropped when a reset came between, keeps all of it |
| PaymentWire.PollKeeps | crates/server/src/wire.rs:435-490 | so does a poll, whose answer is fixed under the lock |
| PaymentWire.MarkKeeps | crates/server/src/wire.rs:491-495 | so does a delivery mark |
| PaymentWire.ReceiptFits | crates/server/src/wire.rs:435-490 | the response fixed by a poll names the payment held by number, reference and amount if it is an approval, and is whole when delivery is normal |
| ListenerOrder.InOrderNeverFalls | crates/server/src/wire.rs:33-38 | from the start, in every run whose resets are each sent over an older generation, the published generation never falls |
| ListenerOrder.SendIsHarmlessExactly | crates/server/src/lib.rs:487-488 | after any run in order, all continuations with this one send keep the published generation from falling if and only if the watch then holds no newer generation |
| ListenerOrder.PublishedGenerationFalls | crates/server/src/lib.rs:487-488 | a run from the start, with two resets sent in the other order, publishes generation 3 and then generation 2 |
| ListenerOrder.ListenerCanAlwaysCatchUp | crates/server/src/wire.rs:30-38 | after any run from the start, whatever the order of its sends, a listener that has not stopped can publish what the watch says without a further send |
| ListenerOrder.OfflineAcceptsNone | crates/server/src/wire.rs:40-52 | after any run a waiting listener accepts a socket exactly when the last transport switch, if any, was to online |
| RequestReader.Parse | crates/server/src/wire.rs:69-139 | the reading loops over a socket give exactly the request or refusal that the pieces mean |
| RequestReader.SegmentationIndependent | crates/server/src/wire.rs:69-139 | a stream whose head ends within the limit gives one result under every segmentation: head up to the first blank line, body of exactly Content-Length bytes |
| RequestReader.AnyTwoSegmentationsAgree | crates/server/src/wire.rs:69-139 | two segmentations of such a stream are read alike |
| RequestReader.WrittenRequestIsRead | crates/server/src/wire.rs:69-139 | a head closed by its only blank line and a body as long as it declares are read back exactly, however cut and whatever follows; a longer declared body than 65536 bytes, or than arrives, is refused as such |
| RequestReader.HeadAcceptanceIndependentExactly | crates/server/src/wire.rs:71-84 | whether a head is accepted depends on what the reads return if and only if it ends more than 16385 and at most 17408 bytes in |
| RequestReader.ReadingIndependentExactly | crates/server/src/wire.rs:69-139 | every stream, with or without a head, gives one request or refusal under all segmentations if and only if it is outside that window |
| RequestReader.ReadOutsideWindow | crates/server/src/wire.rs:69-139 | and outside it that result is the meaning of the stream within the limit and the refusal of its head beyond |
| RequestReader.SegmentationDecides | crates/server/src/wire.rs:71-84 | two cuts of the same stream in that window, one accepted and one refused |
| RequestReader.LongRequestIsReadBothWays | crates/server/src/wire.rs:71-84 | a request with one long header field, its head ending at 16386, accepted in one cut and refused in another |
| RequestReader.LongHeadRefused | crates/server/src/wire.rs:75-77 | a head ending beyond that window, or a stream beyond the limit with no head, is refused as too large under every segmentation |
| RequestReader.HeadEndKept | crates/server/src/wire.rs:72-74 | the first blank line stays the first, whatever bytes follow |
| SsiCodec.Encode | scripts/ssi/codec.mjs:4-11 | the buffer written in place is the frame of the data; longer data is refused |
| SsiCodec.Decoder.Push | scripts/ssi/codec.mjs:17-38 | a push emits and keeps exactly what the pending bytes and the chunk together mean |
| SsiCodec.LrcDetectsOneByte | scripts/ssi/codec.mjs:3 | changing any one byte changes the checksum |
| SsiCodec.ParseResumes | scripts/ssi/codec.mjs:17-38 | the meaning of a concatenation is the meaning of its first part continued from the pending bytes |
| SsiCodec.ChunksDoNotMatter | scripts/ssi/codec.mjs:15-39 | for any chunking, the frames before the first fatal one, whether there is one, and otherwise the pending bytes are those of the joined stream |
| SsiCodec.AnyTwoChunkingsAgree | scripts/ssi/codec.mjs:15-39 | two chunkings of one stream agree on all of that |
| SsiCodec.EncodeFragmentDecode | scripts/ssi/codec.mjs:4-39 | payloads encoded, cut into any fragments and decoded are the same payloads in order with nothing pending |
| SsiCodec.OneBadByteCostsOneFrame | scripts/ssi/codec.mjs:28-35 | altering one byte of one frame's DATA or checksum makes that frame E02 and leaves every other frame decoded |
| SsiCodec.Fragment | scripts/ssi/server.mjs:88-95 | the fragments join to the bytes and have the configured size except for the last |
| SsiCodec.FaultsAreSeen | scripts/ssi/server.mjs:73-77 | a bad checksum reads as E02, a bad length keeps the receiver waiting or is refused when it does not fit, bad JSON is a well-framed payload with one changed byte |
| SsiTerminal.TerminalObject.Tick | scripts/ssi/model.mjs:70-84 | the loop over phases finds the phase running at the present time or completes the operation |
| SsiTerminal.TerminalObject.HandleRequest | scripts/ssi/model.mjs:95-149 | every request's reply and effect, errors in the order of the code |
| SsiTerminal.TerminalObject.CompleteWith | scripts/ssi/model.mjs:85-90 | completion moves the running operation's record to the last result |
| SsiTerminal.TerminalObject.ResetTo | scripts/ssi/model.mjs:64-68 | a reset counts a generation, restores the default scenario and keeps the last result only on request |
| SsiTerminal.TerminalObject.ArmWith | scripts/ssi/model.mjs:69 | arming replaces the armed scenario and nothing else |
| SsiTerminal.OverWhenPhasesSpent | scripts/ssi/model.mjs:73-83 | an operation is over exactly when the elapsed time has used up all phases |
| SsiConduct.StatusIsThePhase | scripts/ssi/model.mjs:70-84 | the status told is that of the phase whose place in the schedule the elapsed time has reached, and S00 when nothing runs |
| SsiConduct.WhatPurchaseDoes | scripts/ssi/model.mjs:128-149 | a purchase is accepted exactly on a terminal on which none runs, with no error scripted, for a good request; refused, it is told why and changes nothing |
| SsiConduct.WhatInterruptDoes | scripts/ssi/model.mjs:116-119 | an interrupt in S02, S03 or S08 ends the operation and stores E12 without the bank's answer; otherwise E08 and no effect |
| SsiConduct.WhatLastResultSays | scripts/ssi/model.mjs:120-122 | busy, the standing result under its code, or nothing |
| SsiConduct.WhatResultByUidSays | scripts/ssi/model.mjs:123-127 | the running, the stored and an unknown operation are told apart |
| SsiConduct.WhatTheOthersSay | scripts/ssi/model.mjs:104-115 | status, ping, lists and make are told, and nothing changes |
| SsiConduct.WhatIsNotServed | scripts/ssi/model.mjs:96-102 | requests without a known name, with ill-shaped parameters or a scripted error get exactly their code and change nothing |
| SsiConduct.ResetTerminalApproves | scripts/ssi/model.mjs:64-149 | after a reset a good purchase is approved whatever went before: 100 ms in S02, 100 ms in S04, then read back with its authorisation |
| SsiConduct.InterruptedIsReadBack | scripts/ssi/model.mjs:116-127 | an interrupted purchase is read back as E12, by last result and by uid, through any run without an accepted purchase or a discarding reset |
| SsiConduct.StoredResultsAreEarned | scripts/ssi/model.mjs:70-149 | after any run a stored result without error belongs to a purchase accepted along it under a scenario without error code whose phases were all spent; any other is an interruption or the scenario's error |
| SsiTerminal.PollIsInvisible | scripts/ssi/model.mjs:91-105 | after a tick, state, GetStatus or PingDevice nothing can tell the terminal from the one before |
| SsiTerminal.PollingUnobservable | scripts/ssi/model.mjs:70-149 | leaving every poll out of a run changes no other reply and no later visible state, as long as no preserving reset of the run without polls meets an operation that is over |
| SsiTerminal.AnyPollingRateAgrees | scripts/ssi/model.mjs:70-149 | two runs that differ only in their polls show every other caller the same |
| SsiTerminal.PollsAreHarmlessExactly | scripts/ssi/model.mjs:64-149 | from every reachable terminal, polls leave no trace at any point of a run if and only if none of its preserving resets meets an operation that is over |
| SsiTerminal.PreservingResetSeesPolls | scripts/ssi/model.mjs:64-68 | in every reachable state a result-preserving reset tells whether a poll preceded it, exactly when the running operation was already over |
| SsiTerminal.ApprovalLostUnlessPolled | scripts/ssi/model.mjs:64-68 | an accepted default purchase and a preserving reset 200 ms later: the approval is kept with a tick in between and lost without |
| SsiTerminal.RunningClearsResult | scripts/ssi/model.mjs:128-137 | while an operation runs there is no stored result, after any calls whatever |
| SsiServer.StepKeeps | scripts/ssi/server.mjs:38-101 | every step of every socket, and every reset, keeps the sockets' invariant |
| SsiServer.HandledIsTheStream | scripts/ssi/server.mjs:55-62 | what a socket has handled is in order and without repetition a beginning of what its byte stream means, however it was cut, and all of it once nothing waits |
| SsiServer.RepliesArriveInOrder | scripts/ssi/server.mjs:63-98 | however the written bytes are cut, the client reads one reply per answer, in the order of handling, each under its own request's name, and a half-written reply stays pending |
| SsiServer.OneReplyPerRequest | scripts/ssi/server.mjs:55-98 | a socket without injected faults, alive and at rest, has answered everything: the client reads exactly one reply to each frame its bytes mean, in order, with nothing pending |
| SsiServer.NothingOutlivesAReset | scripts/ssi/server.mjs:58-91 | after a reset no earlier socket handles a frame or writes a byte, whatever follows |
| SsiServer.LiveIsCurrent | scripts/ssi/server.mjs:58-91 | on a live socket every queued frame and the answer in hand are of the present generation |
| SsiServer.SurvivesItsFrameExactly | scripts/ssi/server.mjs:63-83 | at every turn of every run a live socket hands its next frame to the terminal and survives it exactly when the frame has a header, the fault is not to close and the reply can be written; then the reply is on its way unless the fault is silence |
| ReferenceNormalizer.NormalizeReference | scripts/normalize-reference.mjs:4-21 | the loop over paths on the copy gives the masked body or the first fault |
| ReferenceNormalizer.MapIdentifiers | scripts/normalize-reference.mjs:23-35 | the loops over mappings and their paths give the renamed body or the first fault, an ill-formed mapping included |
| ReferenceNormalizer.NormalizationHidesExactly | scripts/normalize-reference.mjs:4-21 | for lists that repeat no field but transactionUid, two bodies normalise alike if and only if they agree at every other path and hold the same kind (absent, null, string, number) at each listed one |
| ReferenceNormalizer.HidesExactlyWhen | scripts/normalize-reference.mjs:4-21 | that holds of all bodies under a list if and only if the list repeats no field but transactionUid, or names a path that is not allowed |
| ReferenceNormalizer.MaskAllSeen | scripts/normalize-reference.mjs:9-19 | masking succeeds exactly when every path is allowed and holds no other kind of value, and each path then shows as many maskings as the list names it |
| ReferenceNormalizer.SeenIsAll | scripts/normalize-reference.mjs:4-21 | two bodies that show the same at every path are equal |
| ReferenceNormalizer.FirstFaultTold | scripts/normalize-reference.mjs:3-18 | the first listed path that is not a variable field, or holds another kind of value, is the one complained of |
| ReferenceNormalizer.BrokenCorrelationExactly | scripts/normalize-reference.mjs:5-7 | a body is turned away for its identifiers exactly when it has a transactionUid that is a container or is not its id |
| ReferenceNormalizer.DuplicatesHideTypes | scripts/normalize-reference.mjs:9-19 | any other field listed twice makes a number and a string there normalise alike |
| ReferenceNormalizer.RrnListedTwice | scripts/normalize-reference.mjs:9-19 | the reference number listed once tells 7 from "7", listed twice it does not |
| ReferenceNormalizer.RenamingSeen | scripts/normalize-reference.mjs:26-33 | mapping succeeds exactly on well-formed mappings of the three identifier fields, touches only those, and each through the mappings that list it, in order |

## Left out

- EngineObject.Engine.Start: assumes the clock stands at least one hour below 2^64 (`ClockRoom`), because the deadline addition at `crates/core/src/lib.rs:454` is unchecked; the same room is assumed of every control command and every step of a run.
- EngineIdentity.ReceiptNamesItsOperation: operation numbers above 64 bits are excluded, since the source's counter could not hold them; counters, cursors and generations are otherwise unbounded.
- PaymentWire.NoStaleConnection: safety only; that a reset is acknowledged within two seconds is not claimed, and the wait may end either way at any time.
- PaymentWire.PurchaseKeeps: a request reaches this step already parsed and checked; the routes that only look at devices, and the refusals before a purchase, end the connection without touching the engine.
- WireAnswers.PurchaseDoesExactly: the status and text of a refused purchase's response, which its fault decides (`crates/server/src/wire.rs:413-427`), are not modelled beside the fault.
- SsiServer.RepliesArriveInOrder: about answers without an injected frame fault; which fault, delay and fragment size apply is a free choice of each step rather than the scenario's.
- ReferenceNormalizer.HidesExactlyWhen: paths are key lists, already split at the dots.
- SsiTerminal.PollsAreHarmlessExactly: emitted events and the cached phase are not compared.
- RequestReader.Parse: what the head text means (UTF-8, request line, header names, duplicates, transfer encoding) is an uninterpreted partial function giving the content length; the ten-second timeout is a closed stream.
- SsiCodec.Decoder.Push: UTF-8 and JSON decoding of DATA are an uninterpreted predicate; the hexadecimal text of a frame is its bytes.
- SsiTerminal.TerminalObject.HandleRequest: fixed and wall-clock fields of a result record are one `stamp`.
- SsiTerminal.TerminalObject.ArmWith: the scenario is taken as well-formed; the shape and range checks of its fields (`scripts/ssi/model.mjs:24-58`), which refuse it before anything changes, are not modelled.
- ControlPlane.ControlServer.Command: JSON decoding of payloads is done beforehand (an absent or ill-typed field is `None`), the bearer token is taken as checked, and replies carry ids rather than whole operation records; string lengths count characters.
- The profile text of engine and events, and the success response's constant fields and date formatting, are dropped; an event's kind and detail are one value.
- Journal files, persisted terminal state, transport bind errors and CORS headers are input and output only.
- The graphical client, the command line, the recorder, fixtures and the error catalogue's texts carry no property beyond their data.
- The SSI server's limit of 32 sockets, its idle timeout and its HTTP control routes only destroy sockets or call the terminal, which the steps `Break`, `Arm` and `Reset` cover.
