/** The payment engine as it runs: an object that updates its clock, maps, queue and journal in place.
    Every method is proved against the pure meaning in EngineModel.dfy. */
module EngineObject {
  import opened Prelude
  import opened EngineModel
  import opened EngineClock
  import opened EngineInvariants
  import opened EngineRuns
  import M = EngineModel
  import Ids = OperationIds

  predicate DueBy(op: Operation, target: nat) { Due(op).Some? && Due(op).value <= target }

  /** The operation at `a` comes before the one at `b` in (due time, id) order, or is the same. */
  predicate Precedes(ops: map<string, Operation>, a: string, b: string)
    requires a in ops && b in ops && Due(ops[a]).Some? && Due(ops[b]).Some?
  {
    Due(ops[a]).value < Due(ops[b]).value || (Due(ops[a]) == Due(ops[b]) && Ids.AtMost(a, b))
  }

  lemma PrecedesTransitive(ops: map<string, Operation>, a: string, b: string, c: string)
    requires a in ops && b in ops && c in ops && Due(ops[a]).Some? && Due(ops[b]).Some? && Due(ops[c]).Some?
    requires Precedes(ops, a, b) && Precedes(ops, b, c)
    ensures Precedes(ops, a, c)
  {
    if Due(ops[a]) == Due(ops[c]) {
      Ids.AtMostTransitive(a, b, c);
    }
  }

  lemma AdvanceMeans(s: Snapshot, delta: nat)
    requires AllSteppable(s.operations)
    ensures s.nowMs + delta > U64_MAX ==> M.Advance(s, delta) == Answer(s, Some(ClockOverflow))
    ensures s.nowMs + delta <= U64_MAX ==> M.Advance(s, delta) == Answer(AdvanceTo(s, s.nowMs + delta), None)
  {
    hide AdvanceTo;
  }

  lemma EpochSettles(s: Snapshot, epoch: nat)
    requires Settled(s)
    ensures Settled(s.(epochUnixMs := Some(epoch)))
  {
    hide Core;
    hide OneActive;
    hide Money;
    hide Identified;
    hide Quiet;
  }

  class Engine {
    var nowMs: nat
    var epochUnixMs: Option<nat>
    var generation: nat
    var devices: map<string, Device>
    var operations: map<string, Operation>
    var queue: seq<Scenario>
    var events: seq<Event>
    var counters: Counters
    var nextOperation: nat
    var nextEvent: nat

    ghost function State(): Snapshot
      reads this
    {
      Snapshot(nowMs, epochUnixMs, generation, devices, operations, queue, events, counters, nextOperation, nextEvent)
    }

    /** What holds between public calls. */
    ghost predicate Valid()
      reads this
    {
      Settled(State())
    }

    constructor ()
      ensures State() == Fresh(None, 1, 1) && Valid()
    {
      nowMs, epochUnixMs, generation, devices := 0, None, 1, DefaultDevices();
      operations, queue, events, counters := map[], [], [], Counters(0, 0, 0, 0, 0);
      nextOperation, nextEvent := 1, 1;
      new;
      FreshSettles(None);
    }

    /** A copy of another engine, as cloning it gives. */
    constructor Clone(other: Engine)
      ensures State() == other.State()
    {
      nowMs, epochUnixMs, generation, devices := other.nowMs, other.epochUnixMs, other.generation, other.devices;
      operations, queue, events, counters := other.operations, other.queue, other.events, other.counters;
      nextOperation, nextEvent := other.nextOperation, other.nextEvent;
    }

    /** The calendar time at which the clock stood at zero. */
    method WithEpoch(epoch: nat)
      requires Valid()
      modifies this`epochUnixMs
      ensures Valid() && State() == old(State()).(epochUnixMs := Some(epoch))
    {
      EpochSettles(State(), epoch);
      hide Settled;
      epochUnixMs := Some(epoch);
    }

    method Log(id: Option<string>, kind: EventKind)
      modifies this`events, this`nextEvent
      ensures State() == M.Log(old(State()), id, kind)
    {
      var operation := if id.Some? && id.value in operations then Some(operations[id.value]) else None;
      events := events + [Event(
        nextEvent, generation, nowMs,
        if epochUnixMs.None? then None else Some(SaturatingAdd(epochUnixMs.value, nowMs)),
        if operation.Some? then Some(operation.value.deviceId) else None,
        if operation.Some? then Some(operation.value.scenario.id) else None,
        if operation.Some? then Some(operation.value.charged) else None,
        id, kind)];
      nextEvent := nextEvent + 1;
    }

    method Arm(scenario: Scenario) returns (fault: Option<Fault>)
      requires Valid()
      modifies this
      ensures Valid() && Answer(State(), fault) == M.Arm(old(State()), scenario)
    {
      ArmSettles(State(), scenario);
      hide Settled;
      fault := scenario.Validate();
      if fault.Some? { return; }
      if scenario.deviceId !in devices { return Some(TerminalIdInvalid); }
      Log(None, ScenarioArmed(scenario.id));
      queue := queue + [scenario];
    }

    /** Whether any operation of the device is active: a walk over the operations. */
    method AnyActive(device: string) returns (active: bool)
      ensures active == Busy(operations, device)
    {
      var rest := operations.Keys;
      while rest != {}
        invariant rest <= operations.Keys
        invariant forall id :: id in operations.Keys - rest ==>
          !(operations[id].deviceId == device && !operations[id].stage.Terminal())
      {
        var id :| id in rest;
        if operations[id].deviceId == device && !operations[id].stage.Terminal() {
          return true;
        }
        rest := rest - {id};
      }
      active := false;
    }

    method SetDevice(device: Device) returns (fault: Option<Fault>)
      requires Valid()
      modifies this
      ensures Valid() && Answer(State(), fault) == M.SetDevice(old(State()), device)
    {
      SetDeviceSettles(State(), device);
      hide Settled;
      if device.id == "" || device.name == "" || device.merchant == "" { return Some(InvalidDevice); }
      if device.setupError.Some? && !device.setupError.value.DriverInstall9011? { return Some(InvalidSetupError); }
      var active := AnyActive(device.id);
      if active { return Some(TerminalBusy); }
      Log(None, DeviceConfigured(device.id));
      devices := devices[device.id := device];
      fault := None;
    }

    method Transition(id: string, stage: Stage, error: Option<ErrorId>)
      requires id in operations
      modifies this`operations, this`counters, this`events, this`nextEvent
      ensures State() == M.Transition(old(State()), id, stage, error)
    {
      var op := operations[id];
      if stage.Approved? && !op.charged {
        op := op.(charged := true);
        counters := counters.(approvals := counters.approvals + 1);
      }
      if stage.Reversed? && op.charged {
        op := op.(charged := false);
        counters := counters.(reversals := counters.reversals + 1);
      }
      op := op.(stage := stage, stageStartedMs := nowMs, errorId := error);
      if stage.Terminal() {
        op := op.(completedMs := Some(nowMs));
      }
      operations := operations[id := op];
      Log(Some(id), Entered(stage));
    }

    method Step(id: string)
      requires id in operations && !operations[id].stage.Terminal() && Steppable(operations[id])
      modifies this`operations, this`counters, this`events, this`nextEvent
      ensures State() == M.Step(old(State()), id)
    {
      var op := operations[id];
      if nowMs >= op.deadlineMs {
        Transition(id, TimedOut, Some(TerminalTimeout));
        return;
      }
      if op.scenario.outcome.Error? && op.stage == op.scenario.failureStage {
        var error := op.scenario.errorId.value;
        var stage := match error
          case CustomerCancelledError => Cancelled
          case TerminalTimeout => TimedOut
          case _ => Failed;
        Transition(id, stage, Some(error));
        return;
      }
      var next := match op.stage
        case Connecting => AwaitingCard
        case AwaitingCard => AwaitingCustomer
        case AwaitingCustomer => Authorizing
        case Authorizing =>
          if op.scenario.outcome.Decline? then Declined
          else if op.scenario.requireConfirmation then AwaitingConfirmation
          else Approved
        case _ => Approved;
      Transition(id, next, None);
    }

    /** The operation with the least (due time, id) among those due by `target`. */
    method NextDue(target: nat) returns (next: Option<string>)
      ensures next.Some? ==> IsNext(operations, target, next.value)
      ensures next.None? ==> Quiet(operations, target)
    {
      next := None;
      var rest := operations.Keys;
      while rest != {}
        invariant rest <= operations.Keys
        invariant next.None? ==> forall id :: id in operations.Keys - rest ==> !DueBy(operations[id], target)
        invariant next.Some? ==>
          && next.value in operations.Keys - rest && DueBy(operations[next.value], target)
          && forall id :: id in operations.Keys - rest && DueBy(operations[id], target) ==>
            Precedes(operations, next.value, id)
      {
        var id :| id in rest;
        Ids.AtMostTotal(id, id);
        ghost var seen := operations.Keys - rest;
        if DueBy(operations[id], target) {
          if next.None? {
            next := Some(id);
          } else {
            Ids.AtMostTotal(id, next.value);
            if Due(operations[id]).value < Due(operations[next.value]).value
               || (Due(operations[id]) == Due(operations[next.value]) && Ids.AtMost(id, next.value)) {
              forall j | j in seen && DueBy(operations[j], target) ensures Precedes(operations, id, j) {
                PrecedesTransitive(operations, id, next.value, j);
              }
              next := Some(id);
            }
          }
        }
        rest := rest - {id};
        assert operations.Keys - rest == seen + {id};
      }
      if next.Some? {
        assert forall j :: j in operations && Due(operations[j]).Some? && Due(operations[j]).value <= target ==>
            DueBy(operations[j], target);
      }
    }

    method Advance(deltaMs: nat) returns (fault: Option<Fault>)
      requires AllSteppable(operations)
      modifies this
      ensures fault == if old(nowMs) + deltaMs > U64_MAX then Some(ClockOverflow) else None
      ensures State() == if fault.Some? then old(State()) else AdvanceTo(old(State()), old(nowMs) + deltaMs)
    {
      hide Drain;
      if nowMs + deltaMs > U64_MAX { return Some(ClockOverflow); }
      var target := nowMs + deltaMs;
      RunTo(target);
      nowMs := target;
      fault := None;
    }

    /** The event loop of `Advance`. */
    method RunTo(target: nat)
      requires AllSteppable(operations)
      modifies this
      ensures State() == Drain(old(State()), target)
    {
      hide Drain;
      while true
        invariant AllSteppable(operations)
        invariant Drain(State(), target) == Drain(old(State()), target)
        decreases RankSum(operations)
      {
        ghost var s := State();
        var next := NextDue(target);
        if next.None? {
          DrainStops(s, target);
          return;
        }
        var id := next.value;
        DrainFires(s, target, id);
        FireLowersRankSum(s, id);
        nowMs := Max(Due(operations[id]).value, nowMs);
        Step(id);
        assert State() == Fire(s, id);
      }
    }

    /** The position of the device's first queued scenario. */
    method Position(device: string) returns (index: Option<nat>)
      ensures index == FirstFor(queue, device)
    {
      var i := 0;
      while i < |queue|
        invariant i <= |queue| && forall k :: 0 <= k < i ==> queue[k].deviceId != device
      {
        if queue[i].deviceId == device {
          return Some(i);
        }
        i := i + 1;
      }
      index := None;
    }

    /** The checks before a scenario is spent, and the queue position of that scenario. */
    method Admit(deviceId: string, amount: nat, merchant: Option<string>) returns (fault: Option<Fault>, index: nat)
      ensures fault == Refusal(State(), deviceId, amount, merchant)
      ensures fault.None? ==> FirstFor(queue, deviceId) == Some(index) && deviceId in devices
    {
      index := 0;
      if deviceId !in devices { return Some(TerminalIdInvalid), index; }
      var device := devices[deviceId];
      if amount == 0 || amount > 999_999_999 { return Some(InvalidAmount), index; }
      if !device.online || device.setupError.Some? { return Some(TerminalConnectionRefused), index; }
      if merchant.Some? && merchant.value != device.merchant { return Some(MerchantProfileInvalid), index; }
      var active := AnyActive(deviceId);
      if active { return Some(TerminalBusy), index; }
      var position := Position(deviceId);
      if position.None? { return Some(ScenarioMissing), index; }
      index := position.value;
      var scenario := queue[index];
      if (scenario.amount.Some? && scenario.amount.value != amount)
         || (scenario.merchant.Some? && scenario.merchant.value != device.merchant) {
        return Some(ScenarioMismatch), index;
      }
      fault := None;
    }

    method Start(deviceId: string, amount: nat, merchant: Option<string>) returns (fault: Option<Fault>, id: string)
      requires Valid() && ClockRoom(State())
      modifies this
      ensures AllSteppable(old(State()).operations) && Valid()
      ensures Answer(State(), fault) == M.Start(old(State()), deviceId, amount, merchant)
      ensures fault.None? ==> id == NextId(old(State()))
    {
      ghost var s := State();
      SettledIsSteppable(s);
      StartSettles(s, deviceId, amount, merchant);
      assert QueueUsable(queue);
      hide Settled;
      fault, id := StartFrom(deviceId, amount, merchant);
    }

    method CountRequest(deviceId: string, amount: nat)
      modifies this`counters, this`events, this`nextEvent
      ensures State() == Requested(old(State()), deviceId, amount)
    {
      counters := counters.(requests := counters.requests + 1);
      Log(None, PaymentRequest(deviceId, amount));
    }

    method StartFrom(deviceId: string, amount: nat, merchant: Option<string>) returns (fault: Option<Fault>, id: string)
      requires AllSteppable(operations) && QueueUsable(queue) && nowMs <= U64_MAX
      modifies this
      ensures Answer(State(), fault) == M.Start(old(State()), deviceId, amount, merchant)
      ensures fault.None? ==> id == NextId(old(State()))
    {
      hide AdvanceTo;
      hide M.Start;
      hide Refusal;
      ghost var s := State();
      ghost var r := Requested(s, deviceId, amount);
      StartMeans(s, deviceId, amount, merchant);
      id := "";
      CountRequest(deviceId, amount);
      assert State() == r;
      hide Requested;
      hide AllSteppable;
      hide QueueUsable;
      hide Spend;
      var index;
      fault, index := Admit(deviceId, amount, merchant);
      if fault.Some? { return; }
      fault, id := Proceed(deviceId, amount, index);
      hide Accepted;
    }

    /** An admitted purchase spends its scenario; it is cut off or accepted and given its first clock turn. */
    method Proceed(deviceId: string, amount: nat, index: nat) returns (fault: Option<Fault>, id: string)
      requires QueueUsable(queue) && nowMs <= U64_MAX
      requires FirstFor(queue, deviceId) == Some(index) && deviceId in devices
      requires queue[index].uses > 0
      requires !queue[index].delivery.DisconnectBeforeAccept? ==> AllSteppable(Accepted(State(), deviceId, amount).operations)
      modifies this
      ensures var r := old(State());
        if r.queue[index].delivery.DisconnectBeforeAccept? then
          fault == Some(DisconnectedBeforeAccept)
          && State() == M.Log(r.(queue := Spend(r.queue, index)), None, TransportFault)
        else
          fault == None && id == NextId(r)
          && AllSteppable(Accepted(r, deviceId, amount).operations)
          && State() == AdvanceTo(Accepted(r, deviceId, amount), r.nowMs)
    {
      hide AdvanceTo;
      hide AllSteppable;
      hide QueueUsable;
      hide Spend;
      ghost var r := State();
      var scenario := queue[index];
      TakeUse(index);
      if scenario.delivery.DisconnectBeforeAccept? {
        Log(None, TransportFault);
        return Some(DisconnectedBeforeAccept), "";
      }
      id := Accept(devices[deviceId], deviceId, amount, scenario);
      assert State() == Accepted(r, deviceId, amount);
      assert nowMs == r.nowMs;
      hide Accepted;
      fault := Advance(0);
    }

    /** One use taken from the queued scenario at `index`. */
    method TakeUse(index: nat)
      requires index < |queue| && queue[index].uses > 0
      modifies this`queue
      ensures queue == Spend(old(queue), index)
    {
      if queue[index].uses == 1 {
        queue := queue[..index] + queue[index + 1..];
      } else {
        queue := queue[index := queue[index].(uses := queue[index].uses - 1)];
      }
    }

    /** The purchase becomes an operation with the next id. */
    method Accept(device: Device, deviceId: string, amount: nat, scenario: Scenario) returns (id: string)
      requires deviceId in devices && devices[deviceId] == device
      modifies this`operations, this`counters, this`events, this`nextEvent, this`nextOperation
      ensures id == old(NextId(State()))
      ensures var s := old(State()); var op := NewOperation(s, deviceId, amount, scenario);
        State() == M.Log(s.(nextOperation := s.nextOperation + 1,
                            counters := s.counters.(accepted := s.counters.accepted + 1),
                            operations := s.operations[op.id := op]),
                         Some(id), Started)
    {
      id := Ids.Print(generation, nextOperation);
      nextOperation := nextOperation + 1;
      counters := counters.(accepted := counters.accepted + 1);
      var op := Operation(
        id, deviceId, device.merchant, amount, Connecting, nowMs, nowMs, None,
        nowMs + scenario.timing.timeoutMs, false, None, scenario, false);
      operations := operations[id := op];
      Log(Some(id), Started);
    }

    /** A permitted input takes effect. */
    method Perform(id: string, input: Input)
      requires id in operations && Permitted(operations[id], input).Some?
      requires Steppable(operations[id]) && FailureStageActive(operations[id])
      modifies this`devices, this`operations, this`counters, this`events, this`nextEvent
      ensures State() == Acted(old(State()), id, input)
    {
      var op := operations[id];
      var next := Permitted(op, input).value;
      if input.DeviceDisconnected? && op.deviceId in devices {
        devices := devices[op.deviceId := devices[op.deviceId].(online := false)];
      }
      Log(Some(id), InputReceived(input));
      if op.scenario.outcome.Error? && op.stage == op.scenario.failureStage
         && !input.CustomerCancels? && !input.DeviceDisconnected? {
        Step(id);
      } else {
        Transition(id, next, InputError(next));
      }
    }

    /** A manual input. */
    method Act(id: string, input: Input) returns (fault: Option<Fault>)
      requires Valid()
      modifies this
      ensures Actionable(old(State()).operations) && Valid()
      ensures Answer(State(), fault) == M.Act(old(State()), id, input)
    {
      hide Settled;
      hide AdvanceTo;
      hide M.Act;
      hide Acted;
      hide Permitted;
      ghost var s := State();
      ActSettles(s, id, input);
      ActMeans(s, id, input);
      if id !in operations { return Some(OperationNotFound); }
      if Permitted(operations[id], input).None? { return Some(InvalidTransition); }
      Perform(id, input);
      fault := Advance(0);
    }

    method MarkDelivered(id: string)
      requires id in operations
      modifies this`operations, this`counters, this`events, this`nextEvent
      ensures var s := old(State());
        State() == M.Log(s.(operations := s.operations[id := s.operations[id].(responseDelivered := true)],
                            counters := s.counters.(delivered := s.counters.delivered + 1)),
                         Some(id), ResponseDelivered)
    {
      operations := operations[id := operations[id].(responseDelivered := true)];
      counters := counters.(delivered := counters.delivered + 1);
      Log(Some(id), ResponseDelivered);
    }

    method Delivered(id: string) returns (fault: Option<Fault>)
      requires Valid()
      modifies this
      ensures Valid() && Answer(State(), fault) == M.Deliver(old(State()), id)
    {
      hide Settled;
      DeliverSettles(State(), id);
      if id !in operations { return Some(OperationNotFound); }
      if !operations[id].stage.Terminal() { return Some(NotComplete); }
      if !operations[id].responseDelivered {
        MarkDelivered(id);
      }
      fault := None;
    }

    method Reset()
      modifies this
      ensures Valid() && State() == M.Reset(old(State()))
    {
      ResetSettles(State());
      hide Settled;
      epochUnixMs := if epochUnixMs.None? then None else Some(SaturatingAdd(epochUnixMs.value, nowMs));
      generation := generation + 1;
      nowMs, devices, operations, queue, events := 0, DefaultDevices(), map[], [], [];
      counters, nextOperation := Counters(0, 0, 0, 0, 0), 1;
      Log(None, ResetTo(generation));
    }

    /** The clock's public entry: any delta, nothing changed on overflow. */
    method Tick(deltaMs: nat) returns (fault: Option<Fault>)
      requires Valid()
      modifies this
      ensures AllSteppable(old(State()).operations) && Valid()
      ensures Answer(State(), fault) == M.Advance(old(State()), deltaMs)
    {
      hide Settled;
      hide AdvanceTo;
      hide M.Advance;
      hide AllSteppable;
      ghost var s := State();
      SettledIsSteppable(s);
      AdvanceSettles(s, deltaMs);
      AdvanceMeans(s, deltaMs);
      assert AllSteppable(operations);
      fault := Advance(deltaMs);
    }
  }
}
