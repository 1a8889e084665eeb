/** The payment engine's data and the pure meaning of each of its operations.
    The class in EngineObject.dfy updates its fields in place and is proved against these functions. */
module EngineModel {
  import opened Prelude
  import Ids = OperationIds

  // ---------------------------------------------------------------- data

  datatype Stage =
    | Connecting | AwaitingCard | AwaitingCustomer | Authorizing | AwaitingConfirmation
    | Approved | Declined | Cancelled | Failed | TimedOut | Reversed
  {
    predicate Terminal() {
      Approved? || Declined? || Cancelled? || Failed? || TimedOut? || Reversed?
    }

    /** How many scheduled transitions can still follow: five stages at most. */
    function Rank(): nat {
      match this
      case Connecting => 5
      case AwaitingCard => 4
      case AwaitingCustomer => 3
      case Authorizing => 2
      case AwaitingConfirmation => 1
      case _ => 0
    }
  }

  datatype Mode = Automatic | Manual

  datatype Outcome = Approve | Decline | Error

  datatype Delivery =
    | Normal | DisconnectBeforeAccept | DisconnectAfterCommit | DisconnectAfterAccept
    | PartialResponse | Hang | MalformedJson | Http500 | Http400 | WrongContentType
    | MissingFields | UnknownCode

  /** The documented error catalogue, and any identifier outside it. */
  datatype ErrorId =
    | PaylinkNotRunning | TerminalUnknown0 | TerminalGeneral | ProfileInvalid | HostClockInvalid
    | BankHostUnreachable | CustomerCancelledError | ConnectionRefused | BusyError | TerminalTimeout
    | IdInvalid | VerificationFault | DriverInstall9011 | Uncatalogued(name: string)
  {
    predicate Catalogued() { !Uncatalogued? }

    predicate TerminalCategory() { !PaylinkNotRunning? && !DriverInstall9011? && !Uncatalogued? }
  }

  /** The recorded SSI reference cases E00..E22 and the lost-reply timeout, and any other name. */
  datatype ReferenceCase = SsiError(code: nat) | TransportTimeout | Unrecorded(name: string) {
    predicate Recorded() { (SsiError? && code <= 22) || TransportTimeout? }
  }

  datatype Timing = Timing(
    connectMs: nat, cardMs: nat, customerMs: nat, authorizeMs: nat,
    confirmMs: nat, responseMs: nat, timeoutMs: nat)

  const HOUR_MS: nat := 3_600_000

  datatype Fault =
    | InvalidReferenceError | InvalidScenario | InvalidTiming | InvalidStage | UnknownError
    | NotPaymentError | InvalidOutcome | InvalidAmount | TerminalIdInvalid | InvalidDevice
    | InvalidSetupError | TerminalBusy | TerminalConnectionRefused | MerchantProfileInvalid
    | ScenarioMissing | ScenarioMismatch | DisconnectedBeforeAccept | ClockOverflow
    | OperationNotFound | InvalidTransition | NotComplete

  datatype Scenario = Scenario(
    id: string, deviceId: string, amount: Option<nat>, merchant: Option<string>, uses: nat,
    mode: Mode, outcome: Outcome, errorId: Option<ErrorId>, referenceError: Option<ReferenceCase>,
    failureStage: Stage, timing: Timing, delivery: Delivery,
    requireConfirmation: bool, manualBank: bool, seed: nat)
  {
    /** The first rule the scenario breaks, in the order they are checked. */
    function Validate(): (fault: Option<Fault>) {
      if referenceError.Some?
         && ((outcome.Approve? && !referenceError.value.TransportTimeout?) || !referenceError.value.Recorded())
      then Some(InvalidReferenceError)
      else if id == "" || |id| > 128 || uses == 0 || uses > 10_000 then Some(InvalidScenario)
      else if timing.timeoutMs == 0 || timing.timeoutMs > HOUR_MS then Some(InvalidTiming)
      else if timing.connectMs > HOUR_MS || timing.cardMs > HOUR_MS || timing.customerMs > HOUR_MS
           || timing.authorizeMs > HOUR_MS || timing.confirmMs > HOUR_MS || timing.responseMs > HOUR_MS
      then Some(InvalidTiming)
      else if failureStage.Terminal() then Some(InvalidStage)
      else if failureStage.AwaitingConfirmation? && !requireConfirmation then Some(InvalidStage)
      else if errorId.Some? && outcome.Error? && !errorId.value.Catalogued() then Some(UnknownError)
      else if errorId.Some? && outcome.Error? && !errorId.value.TerminalCategory() then Some(NotPaymentError)
      else if errorId.Some? != outcome.Error? then Some(InvalidOutcome)
      else if amount == Some(0) then Some(InvalidAmount)
      else None
    }

    predicate Valid() { Validate().None? }
  }

  datatype Device = Device(id: string, name: string, merchant: string, online: bool, setupError: Option<ErrorId>)

  datatype Operation = Operation(
    id: string, deviceId: string, merchant: string, amount: nat, stage: Stage,
    startedMs: nat, stageStartedMs: nat, completedMs: Option<nat>, deadlineMs: nat,
    charged: bool, errorId: Option<ErrorId>, scenario: Scenario, responseDelivered: bool)

  datatype Counters = Counters(requests: nat, accepted: nat, approvals: nat, reversals: nat, delivered: nat)

  datatype Input =
    | CardPresented | CustomerConfirmed | BankApproved | BankDeclined | TerminalConfirmed
    | ReverseRequested | CustomerCancels | DeviceDisconnected | UnknownInput(name: string)

  /** The kind of a journal entry together with what its detail text says. */
  datatype EventKind =
    | ScenarioArmed(scenario: string) | DeviceConfigured(device: string)
    | PaymentRequest(device: string, amount: nat) | TransportFault | Started
    | Entered(stage: Stage) | InputReceived(input: Input) | ResponseDelivered | ResetTo(generation: nat)

  datatype Event = Event(
    cursor: nat, generation: nat, atMs: nat, unixMs: Option<nat>,
    deviceId: Option<string>, scenarioId: Option<string>, charged: Option<bool>,
    operationId: Option<string>, kind: EventKind)

  /** Everything the engine stores. */
  datatype Snapshot = Snapshot(
    nowMs: nat, epochUnixMs: Option<nat>, generation: nat,
    devices: map<string, Device>, operations: map<string, Operation>, queue: seq<Scenario>,
    events: seq<Event>, counters: Counters, nextOperation: nat, nextEvent: nat)

  const DEVICE_ID := "00000000-0000-4000-8000-000000000001"

  function DefaultDevices(): map<string, Device> {
    map[DEVICE_ID := Device(DEVICE_ID, "Virtual POS", "TEST-MERCHANT", true, None)]
  }

  function Fresh(epoch: Option<nat>, generation: nat, nextEvent: nat): Snapshot {
    Snapshot(0, epoch, generation, DefaultDevices(), map[], [], [], Counters(0, 0, 0, 0, 0), 1, nextEvent)
  }

  // ---------------------------------------------------------------- journal

  function Stamp(s: Snapshot): Option<nat> {
    if s.epochUnixMs.None? then None else Some(SaturatingAdd(s.epochUnixMs.value, s.nowMs))
  }

  function Entry(s: Snapshot, id: Option<string>, kind: EventKind): Event {
    var op := if id.Some? && id.value in s.operations then Some(s.operations[id.value]) else None;
    Event(
      s.nextEvent, s.generation, s.nowMs, Stamp(s),
      if op.Some? then Some(op.value.deviceId) else None,
      if op.Some? then Some(op.value.scenario.id) else None,
      if op.Some? then Some(op.value.charged) else None,
      id, kind)
  }

  function Log(s: Snapshot, id: Option<string>, kind: EventKind): Snapshot {
    s.(events := s.events + [Entry(s, id, kind)], nextEvent := s.nextEvent + 1)
  }

  // ---------------------------------------------------------------- one operation

  function Enter(op: Operation, stage: Stage, now: nat, error: Option<ErrorId>): Operation {
    op.(charged := if stage.Approved? then true else if stage.Reversed? then false else op.charged,
        stage := stage, stageStartedMs := now, errorId := error,
        completedMs := if stage.Terminal() then Some(now) else op.completedMs)
  }

  function Due(op: Operation): Option<nat> {
    if op.stage.Terminal() then None else
    var t := op.scenario.timing;
    var automatic := op.scenario.mode.Automatic?;
    var delay :=
      match op.stage
      case Connecting => Some(t.connectMs)
      case AwaitingCard => if automatic then Some(t.cardMs) else None
      case AwaitingCustomer => if automatic then Some(t.customerMs) else None
      case Authorizing => if !op.scenario.manualBank then Some(t.authorizeMs) else None
      case AwaitingConfirmation => if automatic then Some(t.confirmMs) else None
      case _ => None;
    if delay.None? then Some(op.deadlineMs)
    else Some(Min(SaturatingAdd(op.stageStartedMs, delay.value), op.deadlineMs))
  }

  /** An active operation can be stepped: an Error outcome names its error. */
  predicate Steppable(op: Operation) {
    op.scenario.outcome.Error? ==> op.scenario.errorId.Some?
  }

  datatype Move = Move(stage: Stage, error: Option<ErrorId>)

  function NextMove(op: Operation, now: nat): Move
    requires !op.stage.Terminal() && Steppable(op)
  {
    if now >= op.deadlineMs then Move(TimedOut, Some(TerminalTimeout))
    else if op.scenario.outcome.Error? && op.stage == op.scenario.failureStage then
      var error := op.scenario.errorId.value;
      Move(match error
           case CustomerCancelledError => Cancelled
           case TerminalTimeout => TimedOut
           case _ => Failed,
           Some(error))
    else
      Move(match op.stage
           case Connecting => AwaitingCard
           case AwaitingCard => AwaitingCustomer
           case AwaitingCustomer => Authorizing
           case Authorizing =>
             if op.scenario.outcome.Decline? then Declined
             else if op.scenario.requireConfirmation then AwaitingConfirmation
             else Approved
           case _ => Approved,
           None)
  }

  function StepOperation(op: Operation, now: nat): Operation
    requires !op.stage.Terminal() && Steppable(op)
  {
    var move := NextMove(op, now);
    Enter(op, move.stage, now, move.error)
  }

  // ---------------------------------------------------------------- scheduler

  function Transition(s: Snapshot, id: string, stage: Stage, error: Option<ErrorId>): Snapshot
    requires id in s.operations
  {
    var op := s.operations[id];
    Log(s.(operations := s.operations[id := Enter(op, stage, s.nowMs, error)],
           counters := s.counters.(
             approvals := s.counters.approvals + if stage.Approved? && !op.charged then 1 else 0,
             reversals := s.counters.reversals + if stage.Reversed? && op.charged then 1 else 0)),
        Some(id), Entered(stage))
  }

  function Step(s: Snapshot, id: string): Snapshot
    requires id in s.operations && !s.operations[id].stage.Terminal() && Steppable(s.operations[id])
  {
    var move := NextMove(s.operations[id], s.nowMs);
    Transition(s, id, move.stage, move.error)
  }

  /** `id` is due no later than `target` and no operation is due before it. */
  ghost predicate Earliest(ops: map<string, Operation>, target: nat, id: string) {
    && id in ops && Due(ops[id]).Some? && Due(ops[id]).value <= target
    && forall j :: j in ops && Due(ops[j]).Some? ==> Due(ops[id]).value <= Due(ops[j]).value
  }

  /** The minimum of (due time, id): the scheduler's choice. */
  ghost predicate IsNext(ops: map<string, Operation>, target: nat, id: string) {
    && Earliest(ops, target, id)
    && forall j :: j in ops && Due(ops[j]) == Due(ops[id]) ==> Ids.AtMost(id, j)
  }

  ghost predicate AllSteppable(ops: map<string, Operation>) {
    forall id :: id in ops ==> Steppable(ops[id])
  }

  /** One turn of the scheduler: move the clock to the due time and step that operation. */
  function Fire(s: Snapshot, id: string): Snapshot
    requires id in s.operations && Due(s.operations[id]).Some? && Steppable(s.operations[id])
  {
    Step(s.(nowMs := Max(Due(s.operations[id]).value, s.nowMs)), id)
  }

  ghost function RankSum(ops: map<string, Operation>): nat
    decreases |ops|
  {
    if ops == map[] then 0
    else
      var id :| id in ops;
      ops[id].stage.Rank() + RankSum(ops - {id})
  }

  lemma {:induction false} RankSumSplit(ops: map<string, Operation>, id: string)
    requires id in ops
    ensures RankSum(ops) == ops[id].stage.Rank() + RankSum(ops - {id})
    decreases |ops|
  {
    var k :| k in ops && RankSum(ops) == ops[k].stage.Rank() + RankSum(ops - {k});
    if k != id {
      RankSumSplit(ops - {k}, id);
      RankSumSplit(ops - {id}, k);
      assert ops - {k} - {id} == ops - {id} - {k};
    }
  }

  lemma RankSumUpdate(ops: map<string, Operation>, id: string, op: Operation)
    requires id in ops
    ensures RankSum(ops[id := op]) + ops[id].stage.Rank() == RankSum(ops) + op.stage.Rank()
  {
    RankSumSplit(ops, id);
    RankSumSplit(ops[id := op], id);
    assert ops[id := op] - {id} == ops - {id};
  }

  /** Every step lowers the rank, whatever the scenario. */
  lemma StepLowersRank(op: Operation, now: nat)
    requires !op.stage.Terminal() && Steppable(op)
    ensures StepOperation(op, now).stage.Rank() < op.stage.Rank()
  {
  }

  lemma FireLowersRankSum(s: Snapshot, id: string)
    requires id in s.operations && Due(s.operations[id]).Some? && Steppable(s.operations[id])
    ensures RankSum(Fire(s, id).operations) < RankSum(s.operations)
  {
    var op := s.operations[id];
    var now := Max(Due(op).value, s.nowMs);
    StepLowersRank(op, now);
    RankSumUpdate(s.operations, id, StepOperation(op, now));
  }

  /** The loop of `advance`: fire the next operation until none is due by `target`. */
  ghost function Drain(s: Snapshot, target: nat): (d: Snapshot)
    requires AllSteppable(s.operations)
    ensures AllSteppable(d.operations)
    decreases RankSum(s.operations)
  {
    if exists id :: IsNext(s.operations, target, id) then
      var id :| IsNext(s.operations, target, id);
      FireLowersRankSum(s, id);
      Drain(Fire(s, id), target)
    else s
  }

  ghost function AdvanceTo(s: Snapshot, target: nat): (a: Snapshot)
    requires AllSteppable(s.operations)
    ensures AllSteppable(a.operations) && a.nowMs == target
  {
    Drain(s, target).(nowMs := target)
  }

  // ---------------------------------------------------------------- public operations

  /** What a call leaves behind, and why it was refused if it was. */
  datatype Answer = Answer(after: Snapshot, fault: Option<Fault>)

  ghost function Advance(s: Snapshot, deltaMs: nat): (a: Answer)
    requires AllSteppable(s.operations)
    ensures AllSteppable(a.after.operations)
  {
    if s.nowMs + deltaMs > U64_MAX then Answer(s, Some(ClockOverflow))
    else Answer(AdvanceTo(s, s.nowMs + deltaMs), None)
  }

  function Arm(s: Snapshot, scenario: Scenario): Answer {
    if !scenario.Valid() then Answer(s, Some(scenario.Validate().value))
    else if scenario.deviceId !in s.devices then Answer(s, Some(TerminalIdInvalid))
    else
      var logged := Log(s, None, ScenarioArmed(scenario.id));
      Answer(logged.(queue := s.queue + [scenario]), None)
  }

  predicate Busy(ops: map<string, Operation>, device: string) {
    exists id :: id in ops && ops[id].deviceId == device && !ops[id].stage.Terminal()
  }

  function SetDevice(s: Snapshot, device: Device): Answer {
    if device.id == "" || device.name == "" || device.merchant == "" then Answer(s, Some(InvalidDevice))
    else if device.setupError.Some? && !device.setupError.value.DriverInstall9011? then Answer(s, Some(InvalidSetupError))
    else if Busy(s.operations, device.id) then Answer(s, Some(TerminalBusy))
    else
      var logged := Log(s, None, DeviceConfigured(device.id));
      Answer(logged.(devices := s.devices[device.id := device]), None)
  }

  /** The index of the device's first queued scenario. */
  function FirstFor(queue: seq<Scenario>, device: string): (index: Option<nat>)
    ensures index.Some? ==> index.value < |queue| && queue[index.value].deviceId == device
    ensures index.Some? ==> forall i :: 0 <= i < index.value ==> queue[i].deviceId != device
    ensures index.None? ==> forall i :: 0 <= i < |queue| ==> queue[i].deviceId != device
  {
    if queue == [] then None
    else if queue[0].deviceId == device then Some(0)
    else
      var rest := FirstFor(queue[1..], device);
      if rest.None? then None else Some(rest.value + 1)
  }

  /** Take one use from the entry at `index`; an entry on its last use leaves the queue. */
  function Spend(queue: seq<Scenario>, index: nat): seq<Scenario>
    requires index < |queue| && queue[index].uses > 0
  {
    if queue[index].uses == 1 then queue[..index] + queue[index + 1..]
    else queue[index := queue[index].(uses := queue[index].uses - 1)]
  }

  /** Why a purchase is refused before any scenario is spent, if it is. */
  function Refusal(s: Snapshot, device: string, amount: nat, merchant: Option<string>): Option<Fault> {
    if device !in s.devices then Some(TerminalIdInvalid)
    else if amount == 0 || amount > 999_999_999 then Some(InvalidAmount)
    else if !s.devices[device].online || s.devices[device].setupError.Some? then Some(TerminalConnectionRefused)
    else if merchant.Some? && merchant.value != s.devices[device].merchant then Some(MerchantProfileInvalid)
    else if Busy(s.operations, device) then Some(TerminalBusy)
    else if FirstFor(s.queue, device).None? then Some(ScenarioMissing)
    else
      var scenario := s.queue[FirstFor(s.queue, device).value];
      if (scenario.amount.Some? && scenario.amount.value != amount)
         || (scenario.merchant.Some? && scenario.merchant.value != s.devices[device].merchant)
      then Some(ScenarioMismatch)
      else None
  }

  function NewOperation(s: Snapshot, device: string, amount: nat, scenario: Scenario): Operation
    requires device in s.devices
  {
    Operation(
      Ids.Print(s.generation, s.nextOperation), device, s.devices[device].merchant, amount, Connecting,
      s.nowMs, s.nowMs, None, s.nowMs + scenario.timing.timeoutMs, false, None, scenario, false)
  }

  predicate QueueUsable(queue: seq<Scenario>) {
    forall i :: 0 <= i < |queue| ==> queue[i].Valid()
  }

  function Requested(s: Snapshot, device: string, amount: nat): Snapshot {
    Log(s.(counters := s.counters.(requests := s.counters.requests + 1)), None, PaymentRequest(device, amount))
  }

  /** The accepted purchase before the clock is given a turn. */
  function Accepted(s: Snapshot, device: string, amount: nat): Snapshot
    requires device in s.devices && FirstFor(s.queue, device).Some?
    requires QueueUsable(s.queue)
  {
    var index := FirstFor(s.queue, device).value;
    var op := NewOperation(s, device, amount, s.queue[index]);
    Log(s.(queue := Spend(s.queue, index),
           nextOperation := s.nextOperation + 1,
           counters := s.counters.(accepted := s.counters.accepted + 1),
           operations := s.operations[op.id := op]),
        Some(op.id), Started)
  }

  /** A start that meets no fault accepts an operation under this id. */
  function NextId(s: Snapshot): string { Ids.Print(s.generation, s.nextOperation) }

  ghost function Start(s: Snapshot, device: string, amount: nat, merchant: Option<string>): Answer
    requires AllSteppable(s.operations) && QueueUsable(s.queue)
  {
    var r := Requested(s, device, amount);
    var refusal := Refusal(r, device, amount, merchant);
    if refusal.Some? then Answer(r, Some(refusal.value))
    else
      var index := FirstFor(r.queue, device).value;
      if r.queue[index].delivery.DisconnectBeforeAccept? then
        Answer(Log(r.(queue := Spend(r.queue, index)), None, TransportFault), Some(DisconnectedBeforeAccept))
      else
        Answer(AdvanceTo(Accepted(r, device, amount), r.nowMs), None)
  }

  function Permitted(op: Operation, input: Input): Option<Stage> {
    match (op.stage, input)
    case (AwaitingCard, CardPresented) => Some(AwaitingCustomer)
    case (AwaitingCustomer, CustomerConfirmed) => Some(Authorizing)
    case (Authorizing, BankApproved) =>
      if !op.scenario.manualBank then None
      else if op.scenario.requireConfirmation then Some(AwaitingConfirmation)
      else Some(Approved)
    case (Authorizing, BankDeclined) => if op.scenario.manualBank then Some(Declined) else None
    case (AwaitingConfirmation, TerminalConfirmed) => Some(Approved)
    case (Approved, ReverseRequested) => if op.scenario.requireConfirmation then Some(Reversed) else None
    case (_, CustomerCancels) =>
      if op.stage.Connecting? || op.stage.AwaitingCard? || op.stage.AwaitingCustomer? then Some(Cancelled) else None
    case (_, DeviceDisconnected) => if !op.stage.Terminal() then Some(Failed) else None
    case _ => None
  }

  /** The error an input records on the operation. */
  function InputError(stage: Stage): Option<ErrorId> {
    match stage
    case Cancelled => Some(CustomerCancelledError)
    case Failed => Some(ConnectionRefused)
    case _ => None
  }

  /** A manual input at the stage where the scenario fails brings on that failure instead. */
  predicate HitsFailure(op: Operation, input: Input) {
    op.scenario.outcome.Error? && op.stage == op.scenario.failureStage
    && !input.CustomerCancels? && !input.DeviceDisconnected?
  }

  /** An active operation never waits at a stage the scenario may not fail in. */
  predicate FailureStageActive(op: Operation) {
    op.scenario.outcome.Error? ==> !op.scenario.failureStage.Terminal()
  }

  /** The input logged and its transition made, before the clock is given a turn. */
  function Acted(s: Snapshot, id: string, input: Input): Snapshot
    requires id in s.operations && Permitted(s.operations[id], input).Some?
    requires Steppable(s.operations[id]) && FailureStageActive(s.operations[id])
  {
    var op := s.operations[id];
    var next := Permitted(op, input).value;
    var devices :=
      if input.DeviceDisconnected? && op.deviceId in s.devices
      then s.devices[op.deviceId := s.devices[op.deviceId].(online := false)]
      else s.devices;
    var logged := Log(s.(devices := devices), Some(id), InputReceived(input));
    if HitsFailure(op, input) then Step(logged, id)
    else Transition(logged, id, next, InputError(next))
  }

  ghost predicate Actionable(ops: map<string, Operation>) {
    AllSteppable(ops) && forall id :: id in ops ==> FailureStageActive(ops[id])
  }

  ghost function Act(s: Snapshot, id: string, input: Input): Answer
    requires Actionable(s.operations)
  {
    if id !in s.operations then Answer(s, Some(OperationNotFound))
    else if Permitted(s.operations[id], input).None? then Answer(s, Some(InvalidTransition))
    else Answer(AdvanceTo(Acted(s, id, input), s.nowMs), None)
  }

  function Deliver(s: Snapshot, id: string): Answer {
    if id !in s.operations then Answer(s, Some(OperationNotFound))
    else if !s.operations[id].stage.Terminal() then Answer(s, Some(NotComplete))
    else if s.operations[id].responseDelivered then Answer(s, None)
    else
      var op := s.operations[id].(responseDelivered := true);
      Answer(
        Log(s.(operations := s.operations[id := op],
               counters := s.counters.(delivered := s.counters.delivered + 1)),
            Some(id), ResponseDelivered),
        None)
  }

  function Reset(s: Snapshot): Snapshot {
    var generation := s.generation + 1;
    Log(Fresh(Stamp(s), generation, s.nextEvent), None, ResetTo(generation))
  }

  // ---------------------------------------------------------------- results

  datatype Receipt =
    | Recorded(reference: ReferenceCase)
    | Approval(sequence: nat, rrn: nat, authCode: nat, timestamp: nat, amount: nat)
    | Rejection(error: Option<ErrorId>)

  /** `generation * 1_000_000 + sequence` in wrapping 64-bit arithmetic. */
  function Serial(generation: nat, sequence: nat): nat {
    (generation * 1_000_000 + sequence) % (U64_MAX + 1)
  }

  function Rrn(generation: nat, sequence: nat): nat { Serial(generation, sequence) % 1_000_000_000_000 }

  function Receive(s: Snapshot, id: string): Result<Receipt, Fault> {
    if id !in s.operations then Err(OperationNotFound)
    else
      var op := s.operations[id];
      if !op.stage.Terminal() then Err(NotComplete)
      else if op.scenario.referenceError.Some? then
        if op.scenario.referenceError.value.Recorded() then Ok(Recorded(op.scenario.referenceError.value))
        else Err(InvalidReferenceError)
      else if op.stage.Approved? then
        var parsed := Ids.ParseU64(Ids.LastPiece(op.id));
        var sequence := if parsed.Some? then parsed.value else 0;
        var serial := Serial(s.generation, sequence);
        Ok(Approval(
             sequence, serial % 1_000_000_000_000,
             ((serial + op.scenario.seed) % (U64_MAX + 1)) % 1_000_000,
             SaturatingAdd(if s.epochUnixMs.Some? then s.epochUnixMs.value else 0,
                           if op.completedMs.Some? then op.completedMs.value else s.nowMs),
             op.amount))
      else Ok(Rejection(op.errorId))
  }
}
