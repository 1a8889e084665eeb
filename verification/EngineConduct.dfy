/** What the clock and the manual inputs lead to, told apart from the functions that carry them out:
    where a payment waits for a hand, when each stage ends and how, what every input does, and which
    inputs the journal must show for a payment to stand where it does. */
module EngineConduct {
  import opened Prelude
  import opened EngineModel
  import opened EngineClock
  import opened EngineJournal
  import opened EngineInvariants
  import opened EngineRuns
  import opened EngineLedger
  import opened EngineIdentity
  import opened EngineTerms
  import Ids = OperationIds

  // ---------------------------------------------------------------- where a payment stands next

  /** The stages that end only by hand: the bank's answer when it is given by hand, and every answer of
      card, customer and terminal in manual mode. */
  predicate WaitsForHand(sc: Scenario, stage: Stage) {
    || (stage.Authorizing? && sc.manualBank)
    || (sc.mode.Manual? && (stage.AwaitingCard? || stage.AwaitingCustomer? || stage.AwaitingConfirmation?))
  }

  predicate Underway(stage: Stage) {
    stage.Connecting? || stage.AwaitingCard? || stage.AwaitingCustomer? || stage.Authorizing? || stage.AwaitingConfirmation?
  }

  /** When the clock ends the stage: after its own delay, but no later than the deadline. */
  function EndOfStage(op: Operation): nat {
    if WaitsForHand(op.scenario, op.stage) then op.deadlineMs
    else Min(op.stageStartedMs + Delay(op.scenario.timing, op.stage), op.deadlineMs)
  }

  predicate FailsHere(op: Operation) { op.scenario.outcome.Error? && op.stage == op.scenario.failureStage }

  /** The operation on reaching a stage. */
  function Reached(op: Operation, stage: Stage, at: nat, error: Option<ErrorId>): Operation {
    op.(stage := stage, stageStartedMs := at, errorId := error, charged := stage.Approved?,
        completedMs := if Underway(stage) then None else Some(at))
  }

  function TimedOutNow(op: Operation): Operation { Reached(op, TimedOut, op.deadlineMs, Some(TerminalTimeout)) }

  /** The scenario's failure. */
  function FailedNow(op: Operation, at: nat): Operation
    requires op.scenario.errorId.Some?
  {
    var error := op.scenario.errorId.value;
    Reached(op,
            if error.CustomerCancelledError? then Cancelled else if error.TerminalTimeout? then TimedOut else Failed,
            at, Some(error))
  }

  /** The stage that follows when the clock ends one. */
  function Following(sc: Scenario, stage: Stage): Stage {
    match stage
    case Connecting => AwaitingCard
    case AwaitingCard => AwaitingCustomer
    case AwaitingCustomer => Authorizing
    case Authorizing =>
      if sc.outcome.Decline? then Declined else if sc.requireConfirmation then AwaitingConfirmation else Approved
    case _ => Approved
  }

  function Ended(op: Operation): Operation
    requires FailsHere(op) ==> op.scenario.errorId.Some?
  {
    var at := EndOfStage(op);
    if at == op.deadlineMs then TimedOutNow(op)
    else if FailsHere(op) then FailedNow(op, at)
    else Reached(op, Following(op.scenario, op.stage), at, None)
  }

  /** The operation under the clock alone, stage by stage. */
  function Course(op: Operation, target: nat): Operation
    requires Steppable(op)
    decreases op.stage.Rank()
  {
    if !Underway(op.stage) || target < EndOfStage(op) then op else Course(Ended(op), target)
  }

  // ---------------------------------------------------------------- the clock

  lemma DueIsEndOfStage(op: Operation)
    requires Sound(op)
    ensures Due(op) == if Underway(op.stage) then Some(EndOfStage(op)) else None
    ensures Underway(op.stage) ==> StepOperation(op, EndOfStage(op)) == Ended(op)
  {
  }

  lemma {:induction false} AloneIsCourse(op: Operation, target: nat)
    requires Sound(op)
    ensures Alone(op, target) == Course(op, target)
    decreases op.stage.Rank()
  {
    DueIsEndOfStage(op);
    if Underway(op.stage) && EndOfStage(op) <= target {
      SoundStep(op);
      StepLowersRank(op, EndOfStage(op));
      hide Due;
      hide StepOperation;
      hide Ended;
      hide EndOfStage;
      AloneIsCourse(Ended(op), target);
    }
  }

  /** `advance` takes every operation along its course to the target, and no operation comes or goes. */
  lemma ClockFollowsCourse(s: Snapshot, target: nat)
    requires Settled(s) && s.nowMs <= target <= U64_MAX
    ensures Actionable(s.operations)
    ensures AdvanceTo(s, target).operations == map id | id in s.operations :: Course(s.operations[id], target)
  {
    InvariantFollowsCourse(s, target);
    hide AdvanceTo;
    hide Invariant;
  }

  /** Any run of calls that do not name an operation takes it along its course to the present clock. */
  lemma RunFollowsCourse(s: Snapshot, calls: seq<Call>, id: string)
    requires Settled(s) && Legal(s, calls) && id in s.operations
    requires forall i :: 0 <= i < |calls| ==> !Touches(calls[i], id)
    ensures Actionable(s.operations)
    ensures var end := Run(s, calls);
      s.nowMs <= end.nowMs && id in end.operations && end.operations[id] == Course(s.operations[id], end.nowMs)
  {
    RunLeavesAlone(s, calls, id);
    assert InPlace(id, s.operations[id], s.nowMs);
    hide Run;
    hide Legal;
    hide Touches;
    AloneIsCourse(s.operations[id], Run(s, calls).nowMs);
    hide Alone;
    hide Course;
    hide Settled;
  }

  lemma CourseIsOver(op: Operation, target: nat)
    requires Steppable(op) && !Underway(op.stage)
    ensures Course(op, target) == op
  {
  }

  /** A payment that waits for a hand is left exactly as it is by any run in which nobody touches it, at every
      instant before its deadline, and is timed out exactly at the deadline. */
  lemma WaitingStaysUntilDeadline(s: Snapshot, calls: seq<Call>, id: string)
    requires Settled(s) && Legal(s, calls) && id in s.operations
    requires WaitsForHand(s.operations[id].scenario, s.operations[id].stage)
    requires forall i :: 0 <= i < |calls| ==> !Touches(calls[i], id)
    ensures var op, end := s.operations[id], Run(s, calls);
      id in end.operations
      && end.operations[id]
         == if end.nowMs < op.deadlineMs then op
            else op.(stage := TimedOut, stageStartedMs := op.deadlineMs, completedMs := Some(op.deadlineMs),
                     errorId := Some(TerminalTimeout), charged := false)
  {
    hide Course;
    hide Run;
    hide Legal;
    hide Touches;
    hide Settled;
    hide WaitsForHand;
    RunFollowsCourse(s, calls, id);
    SteppableAt(s.operations, id);
    hide Actionable;
    hide Steppable;
    WaitingStage(s.operations[id], Run(s, calls).nowMs);
  }

  lemma WaitingStage(op: Operation, now: nat)
    requires Steppable(op) && WaitsForHand(op.scenario, op.stage)
    ensures Course(op, now)
         == if now < op.deadlineMs then op
            else op.(stage := TimedOut, stageStartedMs := op.deadlineMs, completedMs := Some(op.deadlineMs),
                     errorId := Some(TerminalTimeout), charged := false)
  {
    CourseIsOver(TimedOutNow(op), now);
  }

  /** Any other stage ends after its own delay if that is before the deadline: with the scenario's failure
      if it fails there, else in the stage that follows, from which the course goes on. At the deadline or
      beyond it is a timeout. */
  lemma TimedStageEndsAfterItsDelay(s: Snapshot, calls: seq<Call>, id: string)
    requires Settled(s) && Legal(s, calls) && id in s.operations
    requires Underway(s.operations[id].stage) && !WaitsForHand(s.operations[id].scenario, s.operations[id].stage)
    requires forall i :: 0 <= i < |calls| ==> !Touches(calls[i], id)
    ensures Steppable(s.operations[id])
    ensures var op, end := s.operations[id], Run(s, calls); var at := op.stageStartedMs + Delay(op.scenario.timing, op.stage);
      && id in end.operations
      && (end.nowMs < at && end.nowMs < op.deadlineMs ==> end.operations[id] == op)
      && (at >= op.deadlineMs && end.nowMs >= op.deadlineMs ==> end.operations[id] == TimedOutNow(op))
      && (at < op.deadlineMs && at <= end.nowMs && FailsHere(op) ==> end.operations[id] == FailedNow(op, at))
      && (at < op.deadlineMs && at <= end.nowMs && !FailsHere(op) ==>
            end.operations[id] == Course(Reached(op, Following(op.scenario, op.stage), at, None), end.nowMs))
  {
    hide Course;
    hide Run;
    hide Legal;
    hide Touches;
    hide Settled;
    hide Reached;
    hide Following;
    hide FailedNow;
    hide TimedOutNow;
    hide FailsHere;
    hide WaitsForHand;
    hide Underway;
    RunFollowsCourse(s, calls, id);
    SteppableAt(s.operations, id);
    hide Actionable;
    hide Steppable;
    TimedStage(s.operations[id], Run(s, calls).nowMs);
  }

  lemma SteppableAt(ops: map<string, Operation>, id: string)
    requires Actionable(ops) && id in ops
    ensures Steppable(ops[id]) && FailureStageActive(ops[id])
  {
  }

  lemma TimedStage(op: Operation, now: nat)
    requires Steppable(op) && Underway(op.stage) && !WaitsForHand(op.scenario, op.stage)
    ensures var at := op.stageStartedMs + Delay(op.scenario.timing, op.stage);
      && (now < at && now < op.deadlineMs ==> Course(op, now) == op)
      && (at >= op.deadlineMs && now >= op.deadlineMs ==> Course(op, now) == TimedOutNow(op))
      && (at < op.deadlineMs && at <= now && FailsHere(op) ==> Course(op, now) == FailedNow(op, at))
      && (at < op.deadlineMs && at <= now && !FailsHere(op) ==>
            Course(op, now) == Course(Reached(op, Following(op.scenario, op.stage), at, None), now))
  {
    CourseIsOver(TimedOutNow(op), now);
    if FailsHere(op) {
      CourseIsOver(FailedNow(op, EndOfStage(op)), now);
    }
  }

  /** An accepted payment, whatever its scenario, starts on its course from Connecting. */
  lemma StartedOnItsCourse(s: Snapshot, device: string, amount: nat, merchant: Option<string>)
    requires Settled(s) && ClockRoom(s) && AllSteppable(s.operations)
    requires Start(s, device, amount, merchant).fault.None?
    ensures device in s.devices && FirstFor(s.queue, device).Some?
    ensures var op := NewOperation(s, device, amount, s.queue[FirstFor(s.queue, device).value]);
      var t := Start(s, device, amount, merchant).after;
      && op.stage.Connecting? && op.startedMs == s.nowMs == op.stageStartedMs && Steppable(op) && op.id in t.operations
      && t.operations[op.id] == Course(op, s.nowMs)
  {
    StartedAlone(s, device, amount, merchant);
    var op := NewOperation(s, device, amount, s.queue[FirstFor(s.queue, device).value]);
    assert s.queue[FirstFor(s.queue, device).value].Valid() by { hide Start; }
    NewOperationIsSound(s, device, amount, s.queue[FirstFor(s.queue, device).value]);
    hide Start;
    hide Settled;
    AloneIsCourse(op, s.nowMs);
    hide Alone;
    hide Course;
  }

  // ---------------------------------------------------------------- what every input does

  /** Where an input is taken. */
  predicate Welcome(op: Operation, input: Input) {
    match input
    case CardPresented => op.stage.AwaitingCard?
    case CustomerConfirmed => op.stage.AwaitingCustomer?
    case BankApproved => op.stage.Authorizing? && op.scenario.manualBank
    case BankDeclined => op.stage.Authorizing? && op.scenario.manualBank
    case TerminalConfirmed => op.stage.AwaitingConfirmation?
    case ReverseRequested => op.stage.Approved? && op.scenario.requireConfirmation
    case CustomerCancels => op.stage.Connecting? || op.stage.AwaitingCard? || op.stage.AwaitingCustomer?
    case DeviceDisconnected => Underway(op.stage)
    case UnknownInput(_) => false
  }

  /** What it leads to: cancellation and disconnection end the payment; at the stage where its scenario fails
      any other input brings on that failure; else the payment goes on as the input says. */
  function Arrived(op: Operation, input: Input, now: nat): Operation
    requires Steppable(op)
  {
    if input.CustomerCancels? then Reached(op, Cancelled, now, Some(CustomerCancelledError))
    else if input.DeviceDisconnected? then Reached(op, Failed, now, Some(ConnectionRefused))
    else if FailsHere(op) then FailedNow(op, now)
    else
      var stage := match input
        case CardPresented => AwaitingCustomer
        case CustomerConfirmed => Authorizing
        case BankApproved => if op.scenario.requireConfirmation then AwaitingConfirmation else Approved
        case BankDeclined => Declined
        case TerminalConfirmed => Approved
        case ReverseRequested => Reversed
        case _ => op.stage;
      Reached(op, stage, now, None)
  }

  function PutOffline(devices: map<string, Device>, id: string): map<string, Device> {
    if id in devices then devices[id := devices[id].(online := false)] else devices
  }

  lemma WelcomeIsPermitted(op: Operation, input: Input, now: nat)
    requires Sound(op) && (Due(op).Some? ==> now < Due(op).value)
    ensures Steppable(op) && FailureStageActive(op) && (Permitted(op, input).Some? <==> Welcome(op, input))
    ensures Welcome(op, input) ==>
      var move := InputMove(op, input, now); Enter(op, move.stage, now, move.error) == Arrived(op, input, now)
  {
  }

  lemma SettledOperation(s: Snapshot, id: string)
    requires Settled(s) && id in s.operations
    ensures Sound(s.operations[id]) && (Due(s.operations[id]).Some? ==> s.nowMs < Due(s.operations[id]).value)
  {
    assert InPlace(id, s.operations[id], s.nowMs) by { hide InPlace; hide Due; }
    hide Sound;
    hide Due;
  }

  lemma ActedDevices(s: Snapshot, id: string, input: Input)
    requires id in s.operations && Permitted(s.operations[id], input).Some?
    requires Steppable(s.operations[id]) && FailureStageActive(s.operations[id])
    ensures Acted(s, id, input).devices
         == if input.DeviceDisconnected? then PutOffline(s.devices, s.operations[id].deviceId) else s.devices
  {
    hide Permitted;
    hide NextMove;
  }

  lemma TransitionShape(s: Snapshot, id: string, move: Move)
    requires id in s.operations
    ensures var t := Transition(s, id, move.stage, move.error);
      && t.operations == s.operations[id := Enter(s.operations[id], move.stage, s.nowMs, move.error)]
      && t.devices == s.devices && t.nowMs == s.nowMs && t.queue == s.queue && t.generation == s.generation
      && t.nextOperation == s.nextOperation
      && |t.events| == |s.events| + 1 && t.events[..|s.events|] == s.events && t.events[|s.events|].kind == Entered(move.stage)
  {
    hide Enter;
  }

  /** Before the clock is given its turn. */
  lemma ActedIsArrived(s: Snapshot, id: string, input: Input)
    requires Settled(s) && id in s.operations && Permitted(s.operations[id], input).Some?
    ensures Steppable(s.operations[id]) && FailureStageActive(s.operations[id])
    ensures var a, op := Acted(s, id, input), s.operations[id];
      && a.operations == s.operations[id := Arrived(op, input, s.nowMs)]
      && a.devices == (if input.DeviceDisconnected? then PutOffline(s.devices, op.deviceId) else s.devices)
      && a.nowMs == s.nowMs && a.queue == s.queue && a.generation == s.generation && a.nextOperation == s.nextOperation
      && |a.events| == |s.events| + 2 && a.events[..|s.events|] == s.events
      && a.events[|s.events|].kind == InputReceived(input) && a.events[|s.events|].operationId == Some(id)
      && a.events[|s.events| + 1].kind.Entered?
  {
    hide Sound;
    hide Due;
    hide Permitted;
    hide Arrived;
    hide Enter;
    hide Acted;
    SettledOperation(s, id);
    hide Settled;
    WelcomeIsPermitted(s.operations[id], input, s.nowMs);
    hide Welcome;
    hide Steppable;
    hide FailureStageActive;
    ActedDevices(s, id, input);
    ActedIsATransition(s, id, input);
    var move := InputMove(s.operations[id], input, s.nowMs);
    hide InputMove;
    var logged := Log(s.(devices := Acted(s, id, input).devices), Some(id), InputReceived(input));
    TransitionShape(logged, id, move);
    hide Transition;
    assert logged.events[..|s.events|] == s.events;
    assert Acted(s, id, input).events[..|s.events|] == Acted(s, id, input).events[..|logged.events|][..|s.events|];
    assert Acted(s, id, input).events[|s.events|] == Acted(s, id, input).events[..|logged.events|][|s.events|];
  }

  /** A payment that is not due stays where it is for now. */
  lemma SettledCourse(s: Snapshot, id: string)
    requires Settled(s) && id in s.operations
    ensures Steppable(s.operations[id]) && Course(s.operations[id], s.nowMs) == s.operations[id]
  {
    SettledStandsStill(s, id);
    assert InPlace(id, s.operations[id], s.nowMs);
    AloneIsCourse(s.operations[id], s.nowMs);
    hide Settled;
    hide Alone;
    hide Course;
  }

  /** For every stage and every input: whether it is taken, where it leads the payment (and, if what follows
      takes no time, on from there), that it leads no other payment anywhere, which device goes offline, and
      that it is logged. */
  lemma WhatInputsDo(s: Snapshot, id: string, input: Input)
    requires Settled(s)
    ensures Actionable(s.operations)
    ensures id !in s.operations ==> Act(s, id, input) == Answer(s, Some(OperationNotFound))
    ensures id in s.operations && !Welcome(s.operations[id], input) ==> Act(s, id, input) == Answer(s, Some(InvalidTransition))
    ensures id in s.operations && Welcome(s.operations[id], input) ==>
      var a, op := Act(s, id, input), s.operations[id];
      && a.fault.None? && Steppable(Arrived(op, input, s.nowMs))
      && a.after.operations == s.operations[id := Course(Arrived(op, input, s.nowMs), s.nowMs)]
      && a.after.devices == (if input.DeviceDisconnected? then PutOffline(s.devices, op.deviceId) else s.devices)
      && a.after.nowMs == s.nowMs && a.after.queue == s.queue && a.after.generation == s.generation
      && |s.events| < |a.after.events| && a.after.events[..|s.events|] == s.events
      && a.after.events[|s.events|].kind == InputReceived(input) && a.after.events[|s.events|].operationId == Some(id)
      && forall i :: |s.events| < i < |a.after.events| ==> a.after.events[i].kind.Entered?
  {
    ActMeans(s, id, input);
    if id in s.operations {
      assert InPlace(id, s.operations[id], s.nowMs) && (Due(s.operations[id]).Some? ==> s.nowMs < Due(s.operations[id]).value)
        by { hide Act; hide InPlace; hide Due; }
      assert Sound(s.operations[id]) by { hide Settled; hide Act; hide Sound; }
      WelcomeIsPermitted(s.operations[id], input, s.nowMs);
      if Welcome(s.operations[id], input) {
        InputThenClock(s, id, input);
      }
    }
    hide Settled;
    hide Act;
    hide Permitted;
    hide Welcome;
    hide Course;
    hide Arrived;
    hide Acted;
  }

  lemma InputThenClock(s: Snapshot, id: string, input: Input)
    requires Settled(s) && id in s.operations && Permitted(s.operations[id], input).Some?
    ensures Steppable(s.operations[id]) && FailureStageActive(s.operations[id])
    ensures AllSteppable(Acted(s, id, input).operations) && Steppable(Arrived(s.operations[id], input, s.nowMs))
    ensures var t, op := AdvanceTo(Acted(s, id, input), s.nowMs), s.operations[id];
      && t.operations == s.operations[id := Course(Arrived(op, input, s.nowMs), s.nowMs)]
      && t.devices == (if input.DeviceDisconnected? then PutOffline(s.devices, op.deviceId) else s.devices)
      && t.nowMs == s.nowMs && t.queue == s.queue && t.generation == s.generation
      && |s.events| < |t.events| && t.events[..|s.events|] == s.events
      && t.events[|s.events|].kind == InputReceived(input) && t.events[|s.events|].operationId == Some(id)
      && forall i :: |s.events| < i < |t.events| ==> t.events[i].kind.Entered?
  {
    hide Acted;
    hide Permitted;
    hide Arrived;
    hide Course;
    hide Invariant;
    hide Quiet;
    hide AdvanceTo;
    SettledIsSteppable(s);
    SteppableAt(s.operations, id);
    hide Actionable;
    ActKeeps(s, id, input);
    ActedIsArrived(s, id, input);
    ClockInRange(s);
    var a := Acted(s, id, input);
    AfterInput(s, a, id);
    hide Settled;
    InputStays(s, a);
    hide Steppable;
    hide FailureStageActive;
  }

  lemma AfterInput(s: Snapshot, a: Snapshot, id: string)
    requires Settled(s) && Invariant(a) && a.nowMs == s.nowMs <= U64_MAX && id in s.operations && id in a.operations
    requires a.operations == s.operations[id := a.operations[id]]
    ensures AllSteppable(a.operations) && Steppable(a.operations[id])
    ensures AdvanceTo(a, s.nowMs).operations == s.operations[id := Course(a.operations[id], s.nowMs)]
  {
    hide Course;
    hide Invariant;
    hide Quiet;
    hide AdvanceTo;
    InvariantFollowsCourse(a, s.nowMs);
    SteppableAt(a.operations, id);
    forall k | k in s.operations ensures Steppable(s.operations[k]) && Course(s.operations[k], s.nowMs) == s.operations[k] {
      SettledCourse(s, k);
    }
    hide Settled;
    hide Steppable;
  }

  lemma InputStays(s: Snapshot, a: Snapshot)
    requires AllSteppable(a.operations) && a.nowMs == s.nowMs && |a.events| == |s.events| + 2 && a.events[..|s.events|] == s.events
    requires a.events[|s.events| + 1].kind.Entered?
    ensures var t := AdvanceTo(a, s.nowMs);
      && t.devices == a.devices && t.nowMs == s.nowMs && t.queue == a.queue && t.generation == a.generation
      && |s.events| < |t.events| && t.events[..|s.events|] == s.events && t.events[|s.events|] == a.events[|s.events|]
      && forall i :: |s.events| < i < |t.events| ==> t.events[i].kind.Entered?
  {
    AdvanceToGrows(a, s.nowMs);
    DrainEnds(a, s.nowMs);
    hide Drain;
    hide AllSteppable;
    hide Quiet;
    InputEvents(s.events, a.events, AdvanceTo(a, s.nowMs).events);
  }

  lemma InputEvents(before: seq<Event>, taken: seq<Event>, after: seq<Event>)
    requires |taken| == |before| + 2 && taken[..|before|] == before && taken[|before| + 1].kind.Entered?
    requires |taken| <= |after| && after[..|taken|] == taken
    requires forall i :: |taken| <= i < |after| ==> after[i].kind.Entered?
    ensures after[..|before|] == before && after[|before|] == taken[|before|]
    ensures forall i :: |before| < i < |after| ==> after[i].kind.Entered?
  {
    assert after[..|before|] == after[..|taken|][..|before|];
    assert after[|before|] == after[..|taken|][|before|] && after[|before| + 1] == after[..|taken|][|before| + 1];
  }

  /** `advance` from a state in which operations may be due at once. */
  lemma InvariantFollowsCourse(s: Snapshot, target: nat)
    requires Invariant(s) && s.nowMs <= target <= U64_MAX
    ensures Actionable(s.operations)
    ensures AdvanceTo(s, target).operations == map id | id in s.operations :: Course(s.operations[id], target)
  {
    SoundIsSteppable(s);
    EachOnItsCourse(s.operations, s.nowMs, target);
    hide Invariant;
    hide Due;
    hide EachAlone;
    hide Course;
    hide AdvanceTo;
    hide Actionable;
    AdvanceRefinesIndependentRuns(s, target);
  }

  lemma EachOnItsCourse(ops: map<string, Operation>, now: nat, target: nat)
    requires Core(ops, now)
    ensures AllSteppable(ops) && EachAlone(ops, target) == map id | id in ops :: Course(ops[id], target)
  {
    hide Due;
    hide Sound;
    hide Alone;
    hide Course;
    forall id | id in ops ensures Steppable(ops[id]) && Alone(ops[id], target) == Course(ops[id], target) {
      assert InPlace(id, ops[id], now);
      SoundSteps(ops[id]);
      AloneIsCourse(ops[id], target);
    }
    hide InPlace;
    hide Steppable;
  }

  lemma SoundSteps(op: Operation)
    requires Sound(op)
    ensures Steppable(op)
  {
  }

  /** The bank's answer given by hand, where neither the scenario fails nor the terminal must confirm: an
      approval charges the payment at once, a refusal declines it without a charge. */
  lemma BankDecides(s: Snapshot, id: string)
    requires Settled(s) && id in s.operations && s.operations[id].stage.Authorizing?
    requires s.operations[id].scenario.manualBank && !FailsHere(s.operations[id]) && !s.operations[id].scenario.requireConfirmation
    ensures Actionable(s.operations)
    ensures var yes := Act(s, id, BankApproved);
      yes.fault.None? && id in yes.after.operations
      && yes.after.operations[id] == s.operations[id].(stage := Approved, charged := true, stageStartedMs := s.nowMs,
                                                       completedMs := Some(s.nowMs), errorId := None)
    ensures var no := Act(s, id, BankDeclined);
      no.fault.None? && id in no.after.operations
      && no.after.operations[id] == s.operations[id].(stage := Declined, charged := false, stageStartedMs := s.nowMs,
                                                      completedMs := Some(s.nowMs), errorId := None)
  {
    hide Settled;
    hide Act;
    hide Course;
    hide FailsHere;
    hide Arrived;
    WhatInputsDo(s, id, BankApproved);
    WhatInputsDo(s, id, BankDeclined);
    SteppableAt(s.operations, id);
    hide Actionable;
    hide Steppable;
    BankArrives(s.operations[id], s.nowMs);
  }

  lemma BankArrives(op: Operation, now: nat)
    requires Steppable(op) && !FailsHere(op) && !op.scenario.requireConfirmation
    ensures Course(Arrived(op, BankApproved, now), now)
         == op.(stage := Approved, charged := true, stageStartedMs := now, completedMs := Some(now), errorId := None)
    ensures Course(Arrived(op, BankDeclined, now), now)
         == op.(stage := Declined, charged := false, stageStartedMs := now, completedMs := Some(now), errorId := None)
  {
    CourseIsOver(Arrived(op, BankApproved, now), now);
    CourseIsOver(Arrived(op, BankDeclined, now), now);
  }

  // ---------------------------------------------------------------- the hands a payment needed

  /** The input stands in the journal for this payment. */
  ghost predicate Logged(events: seq<Event>, id: string, input: Input) {
    exists i :: 0 <= i < |events| && IsInput(events[i], id, input)
  }

  predicate IsInput(e: Event, id: string, input: Input) {
    e.kind == InputReceived(input) && e.operationId == Some(id)
  }

  predicate PastCard(stage: Stage) { stage.AwaitingCustomer? || PastCustomer(stage) }

  predicate PastCustomer(stage: Stage) { stage.Authorizing? || stage.Declined? || PastBank(stage) }

  predicate PastBank(stage: Stage) { stage.AwaitingConfirmation? || stage.Approved? || stage.Reversed? }

  predicate PastTerminal(stage: Stage) { stage.Approved? || stage.Reversed? }

  /** No stage that waits for a hand is passed without that hand in the journal, a reversal has been asked
      for, and a refusal by the bank is final. */
  ghost predicate HandsShown(op: Operation, id: string, events: seq<Event>) {
    var manual, bank := op.scenario.mode.Manual?, op.scenario.manualBank;
    && (manual && PastCard(op.stage) ==> Logged(events, id, CardPresented))
    && (manual && PastCustomer(op.stage) ==> Logged(events, id, CustomerConfirmed))
    && (bank && PastBank(op.stage) ==> Logged(events, id, BankApproved))
    && (bank && op.stage.Declined? ==> Logged(events, id, BankDeclined))
    && (manual && op.scenario.requireConfirmation && PastTerminal(op.stage) ==> Logged(events, id, TerminalConfirmed))
    && (op.stage.Reversed? ==> Logged(events, id, ReverseRequested))
    && (Logged(events, id, BankDeclined) ==> !Underway(op.stage) && !PastBank(op.stage))
  }

  /** Every payment shows its hands, and only known payments have been given any. */
  ghost predicate AllShown(s: Snapshot) {
    && (forall id :: id in s.operations ==> HandsShown(s.operations[id], id, s.events))
    && (forall id, input :: Logged(s.events, id, input) ==> id in s.operations)
  }

  lemma ReachedShows(op: Operation, id: string, events: seq<Event>)
    requires Sound(op) && Underway(op.stage) && HandsShown(op, id, events)
    ensures HandsShown(Ended(op), id, events)
  {
    hide Logged;
  }

  lemma {:induction false} CourseShows(op: Operation, id: string, events: seq<Event>, target: nat)
    requires Sound(op) && HandsShown(op, id, events)
    ensures HandsShown(Course(op, target), id, events)
    decreases op.stage.Rank()
  {
    if Underway(op.stage) && EndOfStage(op) <= target {
      DueIsEndOfStage(op);
      SoundStep(op);
      ReachedShows(op, id, events);
      StepLowersRank(op, EndOfStage(op));
      hide HandsShown;
      hide Due;
      hide StepOperation;
      hide Ended;
      CourseShows(Ended(op), id, events, target);
    }
  }

  /** An input taken shows in the journal what it leads past. */
  lemma ArrivedShows(op: Operation, id: string, events: seq<Event>, more: seq<Event>, input: Input, now: nat)
    requires Sound(op) && Welcome(op, input) && HandsShown(op, id, events)
    requires forall x :: Logged(more, id, x) <==> Logged(events, id, x) || x == input
    ensures Steppable(op) && HandsShown(Arrived(op, input, now), id, more)
  {
    hide Logged;
  }

  /** Nothing but clock and stage entries added: the same hands are shown. */
  lemma SameInputs(before: seq<Event>, after: seq<Event>, id: string, input: Input)
    requires |before| <= |after| && after[..|before|] == before
    requires forall i :: |before| <= i < |after| ==> !after[i].kind.InputReceived?
    ensures Logged(after, id, input) <==> Logged(before, id, input)
  {
    assert forall i :: 0 <= i < |before| ==> after[..|before|][i] == after[i];
    if Logged(before, id, input) {
      var i :| 0 <= i < |before| && IsInput(before[i], id, input);
      assert IsInput(after[i], id, input);
    }
  }

  lemma OneInput(before: seq<Event>, after: seq<Event>, id: string, input: Input, other: string, x: Input)
    requires |before| < |after| && after[..|before|] == before && IsInput(after[|before|], id, input)
    requires forall i :: |before| < i < |after| ==> after[i].kind.Entered?
    ensures Logged(after, other, x) <==> Logged(before, other, x) || (other == id && x == input)
  {
    assert forall i :: 0 <= i < |before| ==> after[..|before|][i] == after[i];
    if Logged(before, other, x) {
      var i :| 0 <= i < |before| && IsInput(before[i], other, x);
      assert IsInput(after[i], other, x);
    }
    if other == id && x == input {
      assert IsInput(after[|before|], other, x);
    }
  }

  // ---------------------------------------------------------------- over whole runs

  predicate NoInputs(before: seq<Event>, after: seq<Event>) {
    |before| <= |after| && after[..|before|] == before
    && forall i :: |before| <= i < |after| ==> !after[i].kind.InputReceived?
  }

  lemma NoInputsTogether(a: seq<Event>, b: seq<Event>, c: seq<Event>)
    requires NoInputs(a, b) && NoInputs(b, c)
    ensures NoInputs(a, c)
  {
    assert c[..|a|] == c[..|b|][..|a|];
    forall i | |a| <= i < |c| ensures !c[i].kind.InputReceived? {
      if i < |b| { assert c[..|b|][i] == b[i]; }
    }
  }

  lemma ClockAddsNoInputs(s: Snapshot, target: nat)
    requires AllSteppable(s.operations) && s.nowMs <= target
    ensures NoInputs(s.events, AdvanceTo(s, target).events)
  {
    AdvanceToGrows(s, target);
    hide AdvanceTo;
  }

  lemma StartAddsNoInputs(s: Snapshot, device: string, amount: nat, merchant: Option<string>)
    requires Settled(s) && ClockRoom(s)
    ensures AllSteppable(s.operations) && NoInputs(s.events, Start(s, device, amount, merchant).after.events)
  {
    SettledIsSteppable(s);
    ClockInRange(s);
    assert QueueUsable(s.queue) by { hide Start; }
    hide Settled;
    StartMeans(s, device, amount, merchant);
    hide Start;
    var r := Requested(s, device, amount);
    assert NoInputs(s.events, r.events);
    hide Requested;
    hide Actionable;
    if Refusal(r, device, amount, merchant).None? {
      hide Refusal;
      var index := FirstFor(r.queue, device).value;
      if r.queue[index].delivery.DisconnectBeforeAccept? {
        NoInputsTogether(s.events, r.events, Start(s, device, amount, merchant).after.events);
      } else {
        var a := Accepted(r, device, amount);
        assert NoInputs(r.events, a.events);
        hide Accepted;
        hide NoInputs;
        ClockAddsNoInputs(a, r.nowMs);
        NoInputsTogether(s.events, r.events, a.events);
        NoInputsTogether(s.events, a.events, AdvanceTo(a, r.nowMs).events);
      }
    }
  }

  lemma CallAddsNoInputs(s: Snapshot, c: Call)
    requires Settled(s) && Possible(s, c) && !c.ActCall? && !c.ResetCall?
    ensures NoInputs(s.events, Apply(s, c).after.events)
  {
    hide Settled;
    hide Start;
    hide Advance;
    hide Act;
    match c
    case StartCall(device, amount, merchant) => StartAddsNoInputs(s, device, amount, merchant);
    case AdvanceCall(delta) => AdvanceAddsNoInputs(s, delta);
    case _ =>
  }

  lemma NoneAdded(events: seq<Event>)
    ensures NoInputs(events, events)
  {
  }

  lemma AdvanceAddsNoInputs(s: Snapshot, delta: nat)
    requires Settled(s)
    ensures AllSteppable(s.operations) && NoInputs(s.events, Advance(s, delta).after.events)
  {
    hide Settled;
    hide AdvanceTo;
    hide NoInputs;
    SettledIsSteppable(s);
    SteppableAll(s.operations);
    hide Actionable;
    hide AllSteppable;
    NoneAdded(s.events);
    if s.nowMs + delta <= U64_MAX { ClockAddsNoInputs(s, s.nowMs + delta); }
  }

  lemma SteppableAll(ops: map<string, Operation>)
    requires Actionable(ops)
    ensures AllSteppable(ops)
  {
  }

  lemma SameHands(op: Operation, id: string, before: seq<Event>, after: seq<Event>)
    requires HandsShown(op, id, before)
    requires forall input :: Logged(after, id, input) <==> Logged(before, id, input)
    ensures HandsShown(op, id, after)
  {
    hide Logged;
  }

  lemma DeliveredHands(op: Operation, was: Operation, id: string, events: seq<Event>)
    requires HandsShown(was, id, events) && op.stage == was.stage && op.scenario == was.scenario
    ensures HandsShown(op, id, events)
  {
    hide Logged;
  }

  /** A payment that no input reaches shows its hands as before. */
  lemma KeptHands(s: Snapshot, c: Call, id: string)
    requires Settled(s) && Possible(s, c) && !c.ResetCall? && !(c.ActCall? && c.id == id)
    requires id in s.operations && HandsShown(s.operations[id], id, s.events)
    ensures id in Apply(s, c).after.operations && HandsShown(Apply(s, c).after.operations[id], id, s.events)
  {
    hide HandsShown;
    if c.DeliverCall? && c.id == id {
      hide Settled;
      DeliveredHands(Apply(s, c).after.operations[id], s.operations[id], id, s.events);
    } else {
      SettledOperation(s, id);
      hide Settled;
      CallLeavesAlone(s, c, id);
      hide Apply;
      hide Sound;
      SteppableAt(s.operations, id);
      AloneIsCourse(s.operations[id], Apply(s, c).after.nowMs);
      CourseShows(s.operations[id], id, s.events, Apply(s, c).after.nowMs);
      hide Alone;
      hide Course;
    }
  }

  /** A payment just accepted needed no hand. */
  lemma NewHands(s: Snapshot, c: Call)
    requires Settled(s) && Possible(s, c) && c.StartCall? && Apply(s, c).fault.None?
    requires forall input :: !Logged(s.events, NextId(s), input)
    ensures NextId(s) in Apply(s, c).after.operations && HandsShown(Apply(s, c).after.operations[NextId(s)], NextId(s), s.events)
  {
    assert QueueUsable(s.queue) by { hide Start; }
    SettledIsSteppable(s);
    hide Settled;
    hide Start;
    hide Course;
    hide HandsShown;
    hide QueueUsable;
    StartedOnItsCourse(s, c.deviceId, c.amount, c.merchant);
    FirstIsValid(s.queue, c.deviceId);
    NewOperationShows(s, c.deviceId, c.amount, s.queue[FirstFor(s.queue, c.deviceId).value]);
    hide Actionable;
  }

  lemma FirstIsValid(queue: seq<Scenario>, device: string)
    requires QueueUsable(queue) && FirstFor(queue, device).Some?
    ensures queue[FirstFor(queue, device).value].Valid()
  {
  }

  lemma NewOperationShows(s: Snapshot, device: string, amount: nat, scenario: Scenario)
    requires device in s.devices && scenario.Valid() && ClockRoom(s)
    requires forall input :: !Logged(s.events, NextId(s), input)
    ensures var op := NewOperation(s, device, amount, scenario);
      Steppable(op) && op.id == NextId(s) && HandsShown(Course(op, s.nowMs), op.id, s.events)
  {
    NewOperationIsSound(s, device, amount, scenario);
    var op := NewOperation(s, device, amount, scenario);
    assert HandsShown(op, NextId(s), s.events) by { hide Logged; hide Sound; }
    hide HandsShown;
    hide Due;
    hide Course;
    CourseShows(op, op.id, s.events, s.nowMs);
  }

  lemma ActedHands(s: Snapshot, id: string, input: Input)
    requires Settled(s) && id in s.operations && Welcome(s.operations[id], input) && HandsShown(s.operations[id], id, s.events)
    ensures Actionable(s.operations)
    ensures var t := Act(s, id, input).after; id in t.operations && HandsShown(t.operations[id], id, t.events)
  {
    var op := s.operations[id];
    WhatInputsDo(s, id, input);
    SettledOperation(s, id);
    ClockInRange(s);
    assert op.stageStartedMs <= s.nowMs by { assert InPlace(id, op, s.nowMs); hide Act; }
    hide Settled;
    hide Act;
    hide Course;
    var events := Act(s, id, input).after.events;
    WelcomeIsPermitted(op, input, s.nowMs);
    InputIsOrderly(op, input, s.nowMs);
    hide InputMove;
    hide Permitted;
    hide Arrived;
    hide Due;
    assert Sound(Arrived(op, input, s.nowMs)) by { hide Sound; hide Welcome; hide HandsShown; }
    hide Sound;
    hide HandsShown;
    forall x ensures Logged(events, id, x) <==> Logged(s.events, id, x) || x == input {
      OneInput(s.events, events, id, input, id, x);
    }
    hide Logged;
    ArrivedShows(op, id, s.events, events, input, s.nowMs);
    CourseShows(Arrived(op, input, s.nowMs), id, events, s.nowMs);
  }

  lemma InputCallShows(s: Snapshot, id: string, input: Input)
    requires Settled(s) && AllShown(s) && id in s.operations && Welcome(s.operations[id], input)
    ensures Actionable(s.operations) && AllShown(Act(s, id, input).after)
  {
    hide Settled;
    hide Act;
    hide Welcome;
    hide Course;
    hide Arrived;
    hide AllShown;
    ShownAt(s, id);
    WhatInputsDo(s, id, input);
    ActedHands(s, id, input);
    hide Actionable;
    hide HandsShown;
    ShownAfterInput(s, Act(s, id, input).after, id, input);
  }

  lemma ShownAt(s: Snapshot, id: string)
    requires AllShown(s) && id in s.operations
    ensures HandsShown(s.operations[id], id, s.events)
  {
  }

  lemma ShownAfterInput(s: Snapshot, t: Snapshot, id: string, input: Input)
    requires AllShown(s) && id in s.operations && t.operations.Keys == s.operations.Keys
    requires forall k :: k in s.operations && k != id ==> t.operations[k] == s.operations[k]
    requires HandsShown(t.operations[id], id, t.events)
    requires |s.events| < |t.events| && t.events[..|s.events|] == s.events && IsInput(t.events[|s.events|], id, input)
    requires forall i :: |s.events| < i < |t.events| ==> t.events[i].kind.Entered?
    ensures AllShown(t)
  {
    hide HandsShown;
    forall x, k ensures Logged(t.events, k, x) <==> Logged(s.events, k, x) || (k == id && x == input) {
      OneInput(s.events, t.events, id, input, k, x);
    }
    hide Logged;
    hide IsInput;
    forall k | k in t.operations ensures HandsShown(t.operations[k], k, t.events) {
      if k != id { SameHands(s.operations[k], k, s.events, t.events); }
    }
  }

  lemma OtherCallShows(s: Snapshot, c: Call)
    requires Settled(s) && Possible(s, c) && AllShown(s) && !c.ResetCall? && !c.ActCall?
    ensures AllShown(Apply(s, c).after)
  {
    hide HandsShown;
    var t := Apply(s, c).after;
    CallAddsNoInputs(s, c);
    forall x, k ensures Logged(t.events, k, x) <==> Logged(s.events, k, x) { SameInputs(s.events, t.events, k, x); }
    hide NoInputs;
    hide Logged;
    forall k | k in t.operations ensures HandsShown(t.operations[k], k, t.events) {
      if k in s.operations {
        KeptHands(s, c, k);
        SameHands(t.operations[k], k, s.events, t.events);
      } else {
        NewPaymentShows(s, c, k);
        SameHands(t.operations[k], k, s.events, t.events);
      }
    }
    forall k | k in s.operations ensures k in t.operations { KeptHands(s, c, k); }
    hide Apply;
    hide Settled;
  }

  /** Only an accepted start brings a payment that was not there. */
  lemma NewPaymentShows(s: Snapshot, c: Call, k: string)
    requires Settled(s) && Possible(s, c) && AllShown(s) && !c.ResetCall? && !c.ActCall?
    requires k !in s.operations && k in Apply(s, c).after.operations
    ensures HandsShown(Apply(s, c).after.operations[k], k, s.events)
  {
    CallMovesIds(s, c);
    ApplySettles(s, c);
    KeyOf(s, Apply(s, c).after, k);
    hide Apply;
    hide Settled;
    hide HandsShown;
    hide Logged;
    NewHands(s, c);
  }

  lemma KeyOf(s: Snapshot, t: Snapshot, k: string)
    requires Settled(s) && Settled(t) && k !in s.operations && k in t.operations
    requires t.generation == s.generation && t.nextOperation <= s.nextOperation + 1
    ensures k == NextId(s) && t.nextOperation == s.nextOperation + 1
  {
    KnownIds(s);
    KnownIds(t);
    hide Settled;
    hide Identified;
    OnlyTheNextIsNew(s, t, k);
  }

  lemma KnownIds(s: Snapshot)
    requires Settled(s)
    ensures Identified(s.operations.Keys, s.generation, s.nextOperation)
  {
    hide Identified;
  }

  lemma CallShows(s: Snapshot, c: Call)
    requires Settled(s) && Possible(s, c) && AllShown(s)
    ensures AllShown(Apply(s, c).after)
  {
    hide HandsShown;
    if c.ResetCall? {
      var t := Apply(s, c).after;
      assert t.operations == map[] && forall i :: 0 <= i < |t.events| ==> !t.events[i].kind.InputReceived?;
    } else if c.ActCall? {
      WhatInputsDo(s, c.id, c.input);
      if c.id in s.operations && Welcome(s.operations[c.id], c.input) {
        InputCallShows(s, c.id, c.input);
      }
      hide Settled;
      hide Act;
      hide AllShown;
    } else {
      OtherCallShows(s, c);
      hide Apply;
      hide Settled;
    }
  }

  lemma {:induction false} RunShows(s: Snapshot, calls: seq<Call>)
    requires Settled(s) && Legal(s, calls) && AllShown(s)
    ensures AllShown(Run(s, calls))
    decreases |calls|
  {
    hide Settled;
    hide Apply;
    hide AllShown;
    hide Possible;
    if calls != [] {
      ApplySettles(s, calls[0]);
      CallShows(s, calls[0]);
      RunShows(Apply(s, calls[0]).after, calls[1..]);
    }
  }

  /** After any run, no payment stands past a stage that waits for a hand unless the journal shows that hand;
      so one whose bank answers by hand is charged only after an approval by hand, and never after a refusal. */
  lemma HandsAreShown(epoch: Option<nat>, calls: seq<Call>, id: string)
    requires Settled(Fresh(epoch, 1, 1)) && Legal(Fresh(epoch, 1, 1), calls)
    requires id in Run(Fresh(epoch, 1, 1), calls).operations
    ensures var s := Run(Fresh(epoch, 1, 1), calls); var op := s.operations[id];
      && HandsShown(op, id, s.events)
      && (op.charged && op.scenario.manualBank ==> Logged(s.events, id, BankApproved))
      && (Logged(s.events, id, BankDeclined) ==> !op.charged && !op.stage.Approved? && !op.stage.Reversed?)
  {
    var f := Fresh(epoch, 1, 1);
    assert AllShown(f);
    RunShows(f, calls);
    var s := Run(f, calls);
    assert HandsShown(s.operations[id], id, s.events);
    SettledOperation(s, id);
    hide Run;
    hide Settled;
    hide Logged;
    hide AllShown;
    hide Due;
  }

  // ---------------------------------------------------------------- when a purchase is admitted

  /** The terminal can take payments. */
  predicate Reachable(d: Device) { d.online && d.setupError.None? }

  ghost predicate TakingPayment(ops: map<string, Operation>, device: string) {
    exists id :: id in ops && ops[id].deviceId == device && Underway(ops[id].stage)
  }

  /** The request is the one the scenario was armed for. */
  predicate Suits(sc: Scenario, amount: nat, d: Device) {
    (sc.amount.Some? ==> sc.amount.value == amount) && (sc.merchant.Some? ==> sc.merchant.value == d.merchant)
  }

  /** How far a purchase request gets, by what is wrong with it first. */
  ghost function Hurdle(s: Snapshot, device: string, amount: nat, merchant: Option<string>): Option<Fault> {
    if device !in s.devices then Some(TerminalIdInvalid)
    else if !(1 <= amount <= 999_999_999) then Some(InvalidAmount)
    else if !Reachable(s.devices[device]) then Some(TerminalConnectionRefused)
    else if merchant.Some? && merchant != Some(s.devices[device].merchant) then Some(MerchantProfileInvalid)
    else if TakingPayment(s.operations, device) then Some(TerminalBusy)
    else if For(s.queue, device) == [] then Some(ScenarioMissing)
    else if !Suits(For(s.queue, device)[0], amount, s.devices[device]) then Some(ScenarioMismatch)
    else if For(s.queue, device)[0].delivery.DisconnectBeforeAccept? then Some(DisconnectedBeforeAccept)
    else None
  }

  lemma BusyIsTakingPayment(ops: map<string, Operation>, device: string)
    ensures Busy(ops, device) <==> TakingPayment(ops, device)
  {
    if Busy(ops, device) {
      var id :| id in ops && ops[id].deviceId == device && !ops[id].stage.Terminal();
      assert Underway(ops[id].stage);
    }
  }

  lemma RefusalIsHurdle(s: Snapshot, device: string, amount: nat, merchant: Option<string>)
    requires QueueUsable(s.queue)
    ensures var refusal, hurdle := Refusal(s, device, amount, merchant), Hurdle(s, device, amount, merchant);
      && (refusal.Some? ==> hurdle == refusal)
      && (refusal.None? ==>
            FirstFor(s.queue, device).Some? && For(s.queue, device) != []
            && s.queue[FirstFor(s.queue, device).value] == For(s.queue, device)[0]
            && hurdle == if For(s.queue, device)[0].delivery.DisconnectBeforeAccept? then Some(DisconnectedBeforeAccept) else None)
  {
    BusyIsTakingPayment(s.operations, device);
    SpendIsFifo(s.queue, device, "");
    hide Busy;
    hide TakingPayment;
    hide QueueUsable;
    hide SpendFor;
    hide Spend;
    hide For;
    hide FirstFor;
    if FirstFor(s.queue, device).Some? && device in s.devices {
      MismatchIsUnsuitable(s.queue[FirstFor(s.queue, device).value], amount, s.devices[device]);
    }
    hide Suits;
  }

  lemma MismatchIsUnsuitable(sc: Scenario, amount: nat, d: Device)
    ensures Suits(sc, amount, d)
       <==> !((sc.amount.Some? && sc.amount.value != amount) || (sc.merchant.Some? && sc.merchant.value != d.merchant))
  {
  }

  /** A purchase is accepted exactly when the device is known and reachable, the amount in range, the merchant
      the device's own if one is named, no payment under way on it, and its first queued scenario made for such
      a request and not cut off before acceptance; otherwise it meets the first of these that fails. */
  lemma StartAdmittedExactly(s: Snapshot, device: string, amount: nat, merchant: Option<string>)
    requires Settled(s) && ClockRoom(s)
    ensures AllSteppable(s.operations) && Start(s, device, amount, merchant).fault == Hurdle(s, device, amount, merchant)
  {
    SettledIsSteppable(s);
    ClockInRange(s);
    assert QueueUsable(s.queue) by { hide Start; }
    hide Settled;
    SteppableAll(s.operations);
    hide Actionable;
    StartMeans(s, device, amount, merchant);
    hide Start;
    hide Accepted;
    hide AdvanceTo;
    hide AllSteppable;
    hide Refusal;
    hide Log;
    var r := Requested(s, device, amount);
    RequestedFields(s, device, amount);
    hide Requested;
    RefusalIsHurdle(r, device, amount, merchant);
    SameHurdle(r, s, device, amount, merchant);
    hide Hurdle;
    hide QueueUsable;
    hide For;
  }

  lemma RequestedFields(s: Snapshot, device: string, amount: nat)
    ensures var r := Requested(s, device, amount); r.operations == s.operations && r.queue == s.queue && r.devices == s.devices
  {
  }

  lemma SameHurdle(r: Snapshot, s: Snapshot, device: string, amount: nat, merchant: Option<string>)
    requires r.operations == s.operations && r.queue == s.queue && r.devices == s.devices
    ensures Hurdle(r, device, amount, merchant) == Hurdle(s, device, amount, merchant)
  {
  }

  /** A scenario is armed exactly for a known device under rules it meets; it is queued behind everything else
      of its device, and other devices' entries stay. */
  lemma ArmedBehind(s: Snapshot, scenario: Scenario, other: string)
    ensures Arm(s, scenario).fault.None? <==> scenario.Valid() && scenario.deviceId in s.devices
    ensures Arm(s, scenario).fault.Some? ==> Arm(s, scenario).after == s
    ensures Arm(s, scenario).fault.None? ==>
      var t := Arm(s, scenario).after;
      && For(t.queue, scenario.deviceId) == For(s.queue, scenario.deviceId) + [scenario]
      && (other != scenario.deviceId ==> For(t.queue, other) == For(s.queue, other))
      && t.operations == s.operations && t.devices == s.devices && t.counters == s.counters && t.nowMs == s.nowMs
  {
    ForAppend(s.queue, scenario, scenario.deviceId);
    ForAppend(s.queue, scenario, other);
    hide For;
    assert For(s.queue, other) + [] == For(s.queue, other);
  }

  /** The rules of a scenario. */
  predicate Rules(sc: Scenario) {
    var t := sc.timing;
    && 1 <= |sc.id| <= 128 && 1 <= sc.uses <= 10_000
    && 1 <= t.timeoutMs <= 3_600_000
    && t.connectMs <= 3_600_000 && t.cardMs <= 3_600_000 && t.customerMs <= 3_600_000 && t.authorizeMs <= 3_600_000
    && t.confirmMs <= 3_600_000 && t.responseMs <= 3_600_000
    && Underway(sc.failureStage) && (sc.failureStage.AwaitingConfirmation? ==> sc.requireConfirmation)
    && (sc.outcome.Error? <==> sc.errorId.Some?)
    && (sc.errorId.Some? ==> !sc.errorId.value.PaylinkNotRunning? && !sc.errorId.value.DriverInstall9011? && !sc.errorId.value.Uncatalogued?)
    && (sc.referenceError.Some? ==>
          (sc.referenceError.value.TransportTimeout? || (sc.referenceError.value.SsiError? && sc.referenceError.value.code <= 22))
          && (sc.outcome.Approve? ==> sc.referenceError.value.TransportTimeout?))
    && sc.amount != Some(0)
  }

  lemma ValidIsByTheRules(sc: Scenario)
    ensures sc.Valid() <==> Rules(sc)
  {
  }

  /** A device is configured exactly when it is named in full, shows no setup error but the documented one and
      takes no payment; then it, and no other device, is as given. */
  lemma ConfiguredExactly(s: Snapshot, device: Device)
    ensures SetDevice(s, device).fault.None?
       <==> device.id != "" && device.name != "" && device.merchant != ""
            && (device.setupError.None? || device.setupError.value.DriverInstall9011?)
            && !TakingPayment(s.operations, device.id)
    ensures SetDevice(s, device).fault.Some? ==> SetDevice(s, device).after == s
    ensures SetDevice(s, device).fault.None? ==>
      var t := SetDevice(s, device).after;
      t.devices == s.devices[device.id := device] && t.operations == s.operations && t.queue == s.queue && t.nowMs == s.nowMs
  {
    BusyIsTakingPayment(s.operations, device.id);
    hide Busy;
    hide TakingPayment;
  }

  /** A new engine, and one just reset, takes payments on its one device: a purchase there is accepted, once a
      scenario is armed that meets the rules and fits amount and merchant, and under every other id it is not. */
  lemma NewEngineAdmits(was: Snapshot, s: Snapshot, sc: Scenario, device: string, amount: nat)
    requires (exists epoch :: s == Fresh(epoch, 1, 1)) || (Settled(was) && s == Reset(was))
    requires Rules(sc) && sc.deviceId == device
    ensures Arm(s, sc).fault.None? <==> device == "00000000-0000-4000-8000-000000000001"
    ensures Arm(s, sc).fault.None? ==>
      var a := Arm(s, sc).after;
      && AllSteppable(a.operations) && QueueUsable(a.queue)
      && Start(a, device, amount, Some("TEST-MERCHANT")).fault
           == if !(1 <= amount <= 999_999_999) then Some(InvalidAmount)
              else if (sc.amount.Some? && sc.amount.value != amount) || (sc.merchant.Some? && sc.merchant.value != "TEST-MERCHANT")
              then Some(ScenarioMismatch)
              else if sc.delivery.DisconnectBeforeAccept? then Some(DisconnectedBeforeAccept) else None
  {
    ValidIsByTheRules(sc);
    hide Rules;
    NewEngineIsBare(was, s);
    ArmedBehind(s, sc, "");
    if Arm(s, sc).fault.None? {
      ApplySettles(s, ArmCall(sc));
      hide Settled;
      hide Arm;
      StartAdmittedExactly(Apply(s, ArmCall(sc)).after, device, amount, Some("TEST-MERCHANT"));
      hide Start;
      hide AllSteppable;
    }
  }

  lemma NewEngineIsBare(was: Snapshot, s: Snapshot)
    requires (exists epoch :: s == Fresh(epoch, 1, 1)) || (Settled(was) && s == Reset(was))
    ensures Settled(s) && s.operations == map[] && s.queue == [] && s.nowMs == 0
    ensures s.devices.Keys == {"00000000-0000-4000-8000-000000000001"}
    ensures var d := s.devices["00000000-0000-4000-8000-000000000001"];
      Reachable(d) && d.merchant == "TEST-MERCHANT" && d.id == "00000000-0000-4000-8000-000000000001"
  {
    hide Settled;
    if epoch :| s == Fresh(epoch, 1, 1) {
      FreshSettles(epoch);
    } else {
      ResetSettles(was);
    }
  }

  // ---------------------------------------------------------------- when an answer is marked delivered

  /** A payment can be marked as answered exactly when it has ended; the first time it is counted and logged,
      and nothing else changes, then or later. */
  lemma DeliveredExactly(s: Snapshot, id: string)
    ensures var a := Deliver(s, id); var t := a.after;
      && a.fault == (if id !in s.operations then Some(OperationNotFound)
                     else if Underway(s.operations[id].stage) then Some(NotComplete) else None)
      && (a.fault.Some? || s.operations[id].responseDelivered ==> t == s)
      && (a.fault.None? && !s.operations[id].responseDelivered ==>
            && t.operations.Keys == s.operations.Keys
            && t.operations[id] == s.operations[id].(responseDelivered := true)
            && (forall k :: k in s.operations && k != id ==> t.operations[k] == s.operations[k])
            && t.counters == s.counters.(delivered := s.counters.delivered + 1)
            && |t.events| == |s.events| + 1 && t.events[..|s.events|] == s.events
            && t.events[|s.events|].kind == ResponseDelivered && t.events[|s.events|].operationId == Some(id)
            && t.nowMs == s.nowMs && t.queue == s.queue && t.devices == s.devices && t.generation == s.generation)
  {
    assert forall e :: (s.events + [e])[..|s.events|] == s.events;
  }

  // ---------------------------------------------------------------- what a receipt says

  /** The receipt of a finished payment: of a recorded case its name, of an approval the seed folded into the
      reference as authorisation code and the calendar time of its completion, of anything else its error. */
  lemma ReceiptTells(s: Snapshot, id: string)
    requires Settled(s) && id in s.operations && !Underway(s.operations[id].stage)
    ensures var op, r := s.operations[id], Receive(s, id);
      && r.Ok?
      && (op.scenario.referenceError.Some? ==> r.value == Recorded(op.scenario.referenceError.value))
      && (op.scenario.referenceError.None? && !op.stage.Approved? ==> r.value == Rejection(op.errorId))
      && (op.scenario.referenceError.None? && op.stage.Approved? ==>
            && r.value.Approval? && r.value.amount == op.amount && op.completedMs.Some?
            && r.value.authCode < 1_000_000
            && (s.generation * 1_000_000 + r.value.sequence + op.scenario.seed <= U64_MAX ==>
                  (r.value.rrn + op.scenario.seed) % 1_000_000 == r.value.authCode)
            && Some(r.value.timestamp) == Calendar(Some(if s.epochUnixMs.Some? then s.epochUnixMs.value else 0), op.completedMs.value))
  {
    SettledOperation(s, id);
    hide Settled;
    var op := s.operations[id];
    FinishedOperation(op);
    hide Sound;
    hide Due;
    if op.scenario.referenceError.None? && op.stage.Approved? {
      ApprovalTells(s, id);
    }
    hide Ids.ParseU64;
    hide Ids.LastPiece;
    hide Serial;
    hide Rrn;
    hide Calendar;
  }

  lemma FinishedOperation(op: Operation)
    requires Sound(op) && !Underway(op.stage)
    ensures op.stage.Terminal() && op.completedMs.Some?
    ensures op.scenario.referenceError.Some? ==> op.scenario.referenceError.value.Recorded()
  {
    ValidIsByTheRules(op.scenario);
    hide KeepsOutcome;
  }

  lemma ApprovalTells(s: Snapshot, id: string)
    requires id in s.operations && s.operations[id].stage.Approved? && s.operations[id].scenario.referenceError.None?
    requires s.operations[id].completedMs.Some?
    ensures var op, r := s.operations[id], Receive(s, id);
      && r.Ok? && r.value.Approval? && r.value.amount == op.amount && r.value.authCode < 1_000_000
      && (s.generation * 1_000_000 + r.value.sequence + op.scenario.seed <= U64_MAX ==>
            (r.value.rrn + op.scenario.seed) % 1_000_000 == r.value.authCode)
      && Some(r.value.timestamp) == Calendar(Some(if s.epochUnixMs.Some? then s.epochUnixMs.value else 0), op.completedMs.value)
  {
    hide Ids.ParseU64;
    hide Ids.LastPiece;
    hide Serial;
    var sequence, seed := Receive(s, id).value.sequence, s.operations[id].scenario.seed;
    if s.generation * 1_000_000 + sequence + seed <= U64_MAX {
      SeedFolds(s.generation, sequence, seed);
    }
  }

  lemma SeedFolds(generation: nat, sequence: nat, seed: nat)
    requires generation * 1_000_000 + sequence + seed <= U64_MAX
    ensures (Rrn(generation, sequence) + seed) % 1_000_000 == ((Serial(generation, sequence) + seed) % (U64_MAX + 1)) % 1_000_000
  {
    var n := generation * 1_000_000 + sequence;
    var low, high := n % 1_000_000_000_000, n / 1_000_000_000_000;
    assert Rrn(generation, sequence) == low && (Serial(generation, sequence) + seed) % (U64_MAX + 1) == n + seed;
    hide Rrn;
    hide Serial;
    assert n + seed == (low + seed) + 1_000_000 * (1_000_000 * high);
    MillionsVanish(low + seed, 1_000_000 * high);
  }

  lemma MillionsVanish(x: nat, k: nat)
    ensures (x + 1_000_000 * k) % 1_000_000 == x % 1_000_000
  {
    var m := 1_000_000;
    assert x == m * (x / m) + x % m;
    assert x + m * k == m * (x / m + k) + x % m;
  }
}
