/** Control commands over whole runs: they apply at most once, and retries leave no trace. */
module ControlRuns {
  import opened Prelude
  import opened EngineModel
  import opened EngineInvariants
  import opened EngineRuns
  import opened EngineLedger
  import opened EngineClock
  import opened EngineIdentity
  import opened EngineTerms
  import opened ControlPlane
  import M = EngineModel
  import Ids = OperationIds

  // ---------------------------------------------------------------- single commands

  /** The commands whose rejection can leave a trace: a purchase that reached the engine. */
  predicate ReachesStart(c: Command) { c.body.Purchase? && c.body.deviceId.Some? && c.body.amount.Some? }

  /** A rejected command leaves everything as it was, except exactly a purchase that reached the engine:
      its request has been counted, so sending it again counts again. */
  lemma RejectionTrace(d: Data, c: Command, controlled: bool)
    requires Settled(d.engine) && Room(d) && Execute(d, c, controlled).reply.CommandRejected?
    ensures Execute(d, c, controlled).after == d <==> !ReachesStart(c)
    ensures Execute(d, c, controlled).after.commands == d.commands && Execute(d, c, controlled).after.scenarios == d.scenarios
  {
    PerformRejected(d, c.body, controlled);
    hide Settled;
    hide Perform;
  }

  /** A purchase for 1.00 at the default device of a server on which nothing is armed. */
  const UNARMED_PURCHASE :=
    Command("payment-1", Signature("purchase", None), Purchase(Some(DEVICE_ID), Some(100), None))

  /** The rejection that leaves a trace: on a server just started that purchase is rejected and counted,
      and sent again it is rejected and counted again. */
  lemma RejectedPurchaseIsCounted(epoch: nat, controlled: bool)
    ensures var d := Data(Fresh(Some(epoch), 1, 1), map[], map[]);
      && Settled(d.engine) && Room(d)
      && var once := Execute(d, UNARMED_PURCHASE, controlled);
         && once.reply.CommandRejected? && once.after.engine.counters.requests == 1 && once.after != d
         && Settled(once.after.engine) && Room(once.after)
         && var twice := Execute(once.after, UNARMED_PURCHASE, controlled);
            twice.reply.CommandRejected? && twice.after.engine.counters.requests == 2
  {
    var d := Data(Fresh(Some(epoch), 1, 1), map[], map[]);
    FreshSettles(Some(epoch));
    UnarmedPurchaseIsRejected(d, controlled);
    ExecuteSettles(d, UNARMED_PURCHASE, controlled);
    var once := Execute(d, UNARMED_PURCHASE, controlled).after;
    hide Settled;
    hide Execute;
    UnarmedPurchaseIsRejected(once, controlled);
  }

  lemma UnarmedPurchaseIsRejected(d: Data, controlled: bool)
    requires Settled(d.engine) && Room(d) && UNARMED_PURCHASE.id !in d.commands && d.engine.queue == []
    ensures var e := Execute(d, UNARMED_PURCHASE, controlled);
      && e.reply.CommandRejected? && e.after == d.(engine := Requested(d.engine, DEVICE_ID, 100))
  {
    SettledIsSteppable(d.engine);
    StartMeans(d.engine, DEVICE_ID, 100, None);
    hide Settled;
    hide M.Start;
    assert GoodId(UNARMED_PURCHASE.id);
    assert FirstFor(Requested(d.engine, DEVICE_ID, 100).queue, DEVICE_ID).None?;
  }

  lemma PerformRejected(d: Data, body: Body, controlled: bool)
    requires Settled(d.engine) && Room(d) && Perform(d, body, controlled).value.None?
    ensures Perform(d, body, controlled).after.commands == d.commands
    ensures Perform(d, body, controlled).after.scenarios == d.scenarios
    ensures Perform(d, body, controlled).after == d
       <==> !(body.Purchase? && body.deviceId.Some? && body.amount.Some?)
  {
    if body.Purchase? || body.Standalone? || body.ManualInput? || body.AdvanceClock? {
      OperatingRejected(d, body, controlled);
    } else {
      SettingUpRejected(d, body, controlled);
    }
    hide *;
  }

  lemma SettingUpRejected(d: Data, body: Body, controlled: bool)
    requires Settled(d.engine) && Room(d) && Perform(d, body, controlled).value.None?
    requires !body.Purchase? && !body.Standalone? && !body.ManualInput? && !body.AdvanceClock?
    ensures Perform(d, body, controlled).after == d
  {
    SettledIsSteppable(d.engine);
    hide Settled;
    hide M.Act;
    hide M.Advance;
    hide M.Start;
    hide Actionable;
    hide AllSteppable;
    hide Idle;
    hide Met;
    hide PerformArm;
    hide NextId;
    hide Room;
    hide M.SetDevice;
    hide M.Reset;
    hide PerformStandalone;
    hide Lift;
    match body
    case ArmInline(scenario) =>
      if scenario.Some? { ArmLiftRefused(d, scenario.value); }
    case ArmSaved(id) =>
      if id in d.scenarios { ArmLiftRefused(d, d.scenarios[id]); }
    case ConfigureDevice(device) =>
      if device.Some? { DeviceLiftRefused(d, device.value); }
    case _ =>
  }

  lemma OperatingRejected(d: Data, body: Body, controlled: bool)
    requires Settled(d.engine) && Room(d) && Perform(d, body, controlled).value.None?
    requires body.Purchase? || body.Standalone? || body.ManualInput? || body.AdvanceClock?
    ensures Perform(d, body, controlled).after.commands == d.commands
    ensures Perform(d, body, controlled).after.scenarios == d.scenarios
    ensures Perform(d, body, controlled).after == d
       <==> !(body.Purchase? && body.deviceId.Some? && body.amount.Some?)
  {
    SettledIsSteppable(d.engine);
    hide Settled;
    hide M.Act;
    hide M.Advance;
    hide M.Start;
    hide Actionable;
    hide AllSteppable;
    hide Idle;
    hide Met;
    hide PerformArm;
    hide NextId;
    hide Room;
    hide M.SetDevice;
    hide M.Reset;
    hide PerformStandalone;
    hide Lift;
    match body
    case Standalone(scenario, amount) =>
      if scenario.Some? && amount.Some? { StandaloneRefused(d, scenario.value, amount.value); }
    case ManualInput(id, input) =>
      if id.Some? && input.Some? { InputLiftRefused(d, id.value, input.value); }
    case AdvanceClock(ms) =>
      if ms.Some? { ClockLiftRefused(d, ms.value); }
    case Purchase(device, amount, merchant) =>
      if device.Some? && amount.Some? { StartLiftRefused(d, device.value, amount.value, merchant); }
  }

  lemma InputLiftRefused(d: Data, id: string, input: Input)
    requires Settled(d.engine)
    ensures Actionable(d.engine.operations)
    ensures var p := Lift(d, M.Act(d.engine, id, input), InputTaken(id)); p.value.None? ==> p.after == d
  {
    ActRefused(d.engine, id, input);
    hide Settled;
    hide Actionable;
    hide M.Act;
  }

  lemma ClockLiftRefused(d: Data, ms: nat)
    requires Settled(d.engine)
    ensures AllSteppable(d.engine.operations)
    ensures var p := Lift(d, M.Advance(d.engine, ms), Clock(d.engine.nowMs + ms)); p.value.None? ==> p.after == d
  {
    AdvanceRefused(d.engine, ms);
    hide Settled;
    hide AllSteppable;
    hide M.Advance;
  }

  lemma StartLiftRefused(d: Data, device: string, amount: nat, merchant: Option<string>)
    requires Settled(d.engine) && Room(d)
    ensures AllSteppable(d.engine.operations)
    ensures var p := Lift(d, M.Start(d.engine, device, amount, merchant), Purchased(NextId(d.engine)));
      p.value.None? ==> p.after != d && p.after.commands == d.commands && p.after.scenarios == d.scenarios
  {
    StartRefused(d.engine, device, amount, merchant);
    hide Settled;
    hide AllSteppable;
    hide NextId;
    hide M.Start;
  }

  lemma DeviceLiftRefused(d: Data, device: Device)
    ensures var p := Lift(d, M.SetDevice(d.engine, device), Configured); p.value.None? ==> p.after == d
  {
    SetDeviceRefused(d.engine, device);
    hide M.SetDevice;
  }

  lemma ArmLiftRefused(d: Data, scenario: Scenario)
    ensures PerformArm(d, scenario).value.None? ==> PerformArm(d, scenario).after == d
  {
    ArmRefused(d.engine, scenario);
    hide M.Arm;
  }

  lemma ArmRefused(s: Snapshot, scenario: Scenario)
    ensures M.Arm(s, scenario).fault.Some? ==> M.Arm(s, scenario).after == s
  {
  }

  lemma SetDeviceRefused(s: Snapshot, device: Device)
    ensures M.SetDevice(s, device).fault.Some? ==> M.SetDevice(s, device).after == s
  {
    hide Busy;
  }

  lemma StandaloneRefused(d: Data, scenario: Scenario, amount: nat)
    requires Settled(d.engine) && Room(d)
    ensures PerformStandalone(d, scenario, amount).value.None? ==> PerformStandalone(d, scenario, amount).after == d
  {
    hide Settled;
    hide M.Start;
    hide M.Arm;
  }

  lemma ActRefused(s: Snapshot, id: string, input: Input)
    requires Settled(s)
    ensures Actionable(s.operations)
    ensures M.Act(s, id, input).fault.Some? ==> M.Act(s, id, input).after == s
  {
    SettledIsSteppable(s);
    hide Settled;
    hide AdvanceTo;
  }

  lemma AdvanceRefused(s: Snapshot, delta: nat)
    requires Settled(s)
    ensures AllSteppable(s.operations)
    ensures M.Advance(s, delta).fault.Some? ==> M.Advance(s, delta).after == s
  {
    SettledIsSteppable(s);
    hide Settled;
    hide AdvanceTo;
  }

  lemma StartRefused(s: Snapshot, device: string, amount: nat, merchant: Option<string>)
    requires Settled(s) && ClockRoom(s)
    ensures AllSteppable(s.operations)
    ensures M.Start(s, device, amount, merchant).fault.Some? ==>
      M.Start(s, device, amount, merchant).after.counters.requests == s.counters.requests + 1
  {
    SettledIsSteppable(s);
    StartMeans(s, device, amount, merchant);
    hide M.Start;
    hide Settled;
    hide Refusal;
    hide AdvanceTo;
  }

  /** A standalone start is all or nothing; when it succeeds the new payment, under the next id, runs the
      given scenario and no other on its device for the amount asked, and the queue holds that scenario's
      remaining uses only beyond what it held. */
  lemma StandaloneIsAtomic(d: Data, scenario: Scenario, amount: nat)
    requires Settled(d.engine) && Room(d)
    ensures var p := PerformStandalone(d, scenario, amount);
      && (p.value.None? ==> p.after == d)
      && (p.value.Some? ==>
            && For(d.engine.queue, scenario.deviceId) == []
            && For(p.after.engine.queue, scenario.deviceId)
               == (if scenario.uses == 1 then [] else [scenario.(uses := scenario.uses - 1)])
            && p.after.engine.counters.accepted == d.engine.counters.accepted + 1
            && var ops, id := p.after.engine.operations, NextId(d.engine);
               && p.value == Some(Purchased(id)) && id in ops && id !in d.engine.operations
               && ops[id].scenario == scenario && ops[id].amount == amount && ops[id].deviceId == scenario.deviceId)
  {
    hide M.Start;
    hide M.Arm;
    hide Settled;
    hide For;
    if PerformStandalone(d, scenario, amount).value.Some? {
      StandaloneQueue(d.engine, scenario, amount);
      StandaloneRuns(d.engine, scenario, amount);
    }
  }

  /** The queue and the accepted count of a standalone start that succeeds. */
  lemma StandaloneQueue(s: Snapshot, scenario: Scenario, amount: nat)
    requires Settled(s) && ClockRoom(s) && FirstFor(s.queue, scenario.deviceId).None?
    requires M.Arm(s, scenario).fault.None?
    ensures For(s.queue, scenario.deviceId) == []
    ensures var armed := M.Arm(s, scenario).after;
      && AllSteppable(armed.operations) && QueueUsable(armed.queue)
      && var t := M.Start(armed, scenario.deviceId, amount, None);
         t.fault.None? ==>
           && For(t.after.queue, scenario.deviceId)
              == (if scenario.uses == 1 then [] else [scenario.(uses := scenario.uses - 1)])
           && t.after.counters.accepted == s.counters.accepted + 1
  {
    assert scenario.uses > 0 by { assert scenario.Valid(); }
    var armed := M.Arm(s, scenario).after;
    ArmSettles(s, scenario);
    ArmedAlone(s, scenario);
    hide M.Arm;
    hide For;
    assert QueueUsable(armed.queue) by { hide M.Start; }
    SettledIsSteppable(armed);
    hide Settled;
    hide M.Start;
    hide Actionable;
    hide QueueUsable;
    hide FirstFor;
    hide ClockRoom;
    hide AllSteppable;
    hide Spend;
    StartOfArmed(armed, scenario.deviceId, amount, scenario);
  }

  /** A start on a device for which one scenario is queued. */
  lemma StartOfArmed(armed: Snapshot, device: string, amount: nat, scenario: Scenario)
    requires Settled(armed) && ClockRoom(armed) && For(armed.queue, device) == [scenario] && scenario.uses > 0
    ensures AllSteppable(armed.operations) && QueueUsable(armed.queue)
    ensures var t := M.Start(armed, device, amount, None);
      t.fault.None? ==>
        && For(t.after.queue, device) == (if scenario.uses == 1 then [] else [scenario.(uses := scenario.uses - 1)])
        && t.after.counters.accepted == armed.counters.accepted + 1
  {
    SettledIsSteppable(armed);
    assert QueueUsable(armed.queue) by { hide M.Start; }
    hide Settled;
    hide M.Start;
    hide For;
    hide ClockRoom;
    hide Actionable;
    hide QueueUsable;
    if M.Start(armed, device, amount, None).fault.None? {
      StartIsFifo(armed, device, amount, None, "");
      StartAccepts(armed, device, amount);
      SpendOnly(scenario);
      hide Spend;
    }
  }

  lemma SpendOnly(scenario: Scenario)
    requires scenario.uses > 0
    ensures Spend([scenario], 0) == if scenario.uses == 1 then [] else [scenario.(uses := scenario.uses - 1)]
  {
    assert [scenario][..0] == [] && [scenario][1..] == [];
  }

  lemma ArmedAlone(s: Snapshot, scenario: Scenario)
    requires Settled(s) && FirstFor(s.queue, scenario.deviceId).None? && M.Arm(s, scenario).fault.None?
    ensures var armed := M.Arm(s, scenario).after;
      && armed.counters == s.counters && ClockRoom(armed) == ClockRoom(s) && FirstFor(armed.queue, scenario.deviceId).Some?
      && For(s.queue, scenario.deviceId) == [] && For(armed.queue, scenario.deviceId) == [scenario]
  {
    assert QueueUsable(s.queue);
    hide Settled;
    assert scenario.Valid();
    SpendIsFifo(s.queue, scenario.deviceId, "");
    ForAppend(s.queue, scenario, scenario.deviceId);
    assert M.Arm(s, scenario).after.queue == s.queue + [scenario];
    SpendIsFifo(s.queue + [scenario], scenario.deviceId, "");
    hide For;
    hide SpendFor;
  }

  /** The only scenario queued for the device is the one just armed, so it is the one the payment runs. */
  lemma StandaloneRuns(s: Snapshot, scenario: Scenario, amount: nat)
    requires Settled(s) && ClockRoom(s) && FirstFor(s.queue, scenario.deviceId).None?
    requires M.Arm(s, scenario).fault.None?
    ensures var armed := M.Arm(s, scenario).after;
      && AllSteppable(armed.operations) && QueueUsable(armed.queue)
      && var t := M.Start(armed, scenario.deviceId, amount, None); var id := NextId(s);
         t.fault.None? ==>
           && id in t.after.operations && id !in s.operations && t.after.operations[id].scenario == scenario
           && t.after.operations[id].amount == amount && t.after.operations[id].deviceId == scenario.deviceId
  {
    ArmSettles(s, scenario);
    NewIdIsNew(s);
    var armed := M.Arm(s, scenario).after;
    SettledIsSteppable(armed);
    assert QueueUsable(armed.queue) && QueueUsable(s.queue);
    assert armed.queue == s.queue + [scenario] && NextId(armed) == NextId(s) && ClockRoom(armed);
    SpendIsFifo(s.queue, scenario.deviceId, "");
    SpendIsFifo(armed.queue, scenario.deviceId, "");
    ForAppend(s.queue, scenario, scenario.deviceId);
    hide M.Arm;
    hide M.Start;
    hide SpendFor;
    if M.Start(armed, scenario.deviceId, amount, None).fault.None? {
      StartedAlone(armed, scenario.deviceId, amount, None);
      hide Settled;
      var op := NewOperation(armed, scenario.deviceId, amount, armed.queue[FirstFor(armed.queue, scenario.deviceId).value]);
      AloneKeepsTerms(op, armed.nowMs);
      hide Alone;
    }
  }

  lemma StartAccepts(s: Snapshot, device: string, amount: nat)
    requires Settled(s) && ClockRoom(s) && AllSteppable(s.operations)
    requires M.Start(s, device, amount, None).fault.None?
    ensures M.Start(s, device, amount, None).after.counters.accepted == s.counters.accepted + 1
  {
    StartSettles(s, device, amount, None);
    StartSpends(s, device, amount, None);
    var t := M.Start(s, device, amount, None).after;
    assert Settled(t) && t.nextOperation == s.nextOperation + 1;
    AcceptedIsNumbered(s);
    AcceptedIsNumbered(t);
    hide M.Start;
    hide Settled;
  }

  /** The number of accepted operations is the next operation number less one. */
  lemma AcceptedIsNumbered(s: Snapshot)
    requires Settled(s)
    ensures s.counters.accepted == s.nextOperation - 1
  {
    KeysCount(s.operations.Keys, s.generation, s.nextOperation);
  }

  lemma {:induction false} KeysCount(ids: set<string>, generation: nat, next: nat)
    requires Identified(ids, generation, next)
    ensures |ids| == next - 1
    decreases next
  {
    if next == 1 {
      assert ids == {};
    } else {
      var last := Ids.Print(generation, next - 1);
      assert last in ids;
      forall id | id in ids - {last} ensures exists n :: 1 <= n < next - 1 && id == Ids.Print(generation, n) {
        var n :| 1 <= n < next && id == Ids.Print(generation, n);
        assert n < next - 1;
      }
      forall n | 1 <= n < next - 1 ensures Ids.Print(generation, n) in ids - {last} {
        if Ids.Print(generation, n) == last {
          Ids.PrintInjective(generation, n, generation, next - 1);
        }
      }
      KeysCount(ids - {last}, generation, next - 1);
    }
  }

  // ---------------------------------------------------------------- payments under control commands

  lemma StandaloneFollows(d: Data, scenario: Scenario, amount: nat)
    requires Settled(d.engine) && Room(d)
    ensures Follows(d.engine, PerformStandalone(d, scenario, amount).after.engine)
  {
    if PerformStandalone(d, scenario, amount).value.Some? {
      ArmSettles(d.engine, scenario);
      var armed := M.Arm(d.engine, scenario).after;
      CallFollows(d.engine, ArmCall(scenario));
      CallFollows(armed, StartCall(scenario.deviceId, amount, None));
      hide M.Start;
      hide Settled;
      hide Follows;
      FollowsTransitive(d.engine, armed, PerformStandalone(d, scenario, amount).after.engine);
    } else {
      hide M.Start;
    }
  }

  lemma PurchaseFollows(d: Data, device: string, amount: nat, merchant: Option<string>)
    requires Settled(d.engine) && Room(d)
    ensures AllSteppable(d.engine.operations) && Follows(d.engine, M.Start(d.engine, device, amount, merchant).after)
  {
    hide Settled;
    hide Follows;
    hide M.Start;
    SettledIsSteppable(d.engine);
    CallFollows(d.engine, StartCall(device, amount, merchant));
    hide Actionable;
  }

  lemma InputFollows(d: Data, id: string, input: Input)
    requires Settled(d.engine)
    ensures Actionable(d.engine.operations) && Follows(d.engine, M.Act(d.engine, id, input).after)
  {
    hide Settled;
    hide Follows;
    hide M.Act;
    SettledIsSteppable(d.engine);
    CallFollows(d.engine, ActCall(id, input));
    hide Actionable;
  }

  lemma ClockFollows(d: Data, ms: nat)
    requires Settled(d.engine)
    ensures AllSteppable(d.engine.operations) && Follows(d.engine, M.Advance(d.engine, ms).after)
  {
    hide Settled;
    hide Follows;
    hide M.Advance;
    SettledIsSteppable(d.engine);
    CallFollows(d.engine, AdvanceCall(ms));
    hide Actionable;
  }

  lemma PerformFollows(d: Data, body: Body, controlled: bool)
    requires Settled(d.engine) && Room(d) && !body.ResetAll?
    ensures Follows(d.engine, Perform(d, body, controlled).after.engine)
  {
    var call := CallOf(d, body, controlled);
    if call.Some? {
      PerformIsItsCall(d, body, controlled);
      CallHasRoom(d, call.value);
      NoResetCall(d, body, controlled);
      hide Settled;
      hide Perform;
      hide CallOf;
      hide Apply;
      hide Follows;
      CallFollows(d.engine, call.value);
    } else if body.Standalone? && body.scenario.Some? && body.amount.Some? {
      StandaloneFollows(d, body.scenario.value, body.amount.value);
      PerformsStandalone(d, body, controlled);
      hide Settled;
      hide Perform;
      hide PerformStandalone;
      hide CallOf;
      hide Follows;
    } else {
      PerformElse(d, body, controlled);
      hide Settled;
      hide Perform;
      hide CallOf;
    }
  }

  lemma NoResetCall(d: Data, body: Body, controlled: bool)
    ensures var call := CallOf(d, body, controlled);
      call.Some? ==> !call.value.DeliverCall? && (call.value.ResetCall? <==> body.ResetAll?)
  {
  }

  /** A command begins a new generation, or it leaves every payment in place under its own terms and
      marks no response as delivered. */
  lemma ExecuteFollows(d: Data, c: Command, controlled: bool)
    requires Settled(d.engine) && Room(d)
    ensures var t := Execute(d, c, controlled).after.engine;
      if Applied(d, c, controlled) && c.body.ResetAll? then t == M.Reset(d.engine) else Follows(d.engine, t)
  {
    assert Follows(d.engine, d.engine) by { hide Settled; }
    if c.body.ResetAll? {
      hide Settled;
      hide Follows;
    } else {
      PerformFollows(d, c.body, controlled);
      hide Perform;
      hide Settled;
      hide Follows;
    }
  }

  // ---------------------------------------------------------------- whole runs

  /** A control command, or anything else that touches the engine between commands. */
  datatype Step =
    | Control(command: Command)
    | ClockTick(deltaMs: nat)
    | Payment(deviceId: string, amount: nat, merchant: Option<string>)
    | Delivery(operationId: string)

  ghost function Take(d: Data, step: Step, controlled: bool): Data
    requires Settled(d.engine) && Room(d)
  {
    SettledIsSteppable(d.engine);
    match step
    case Control(c) => Execute(d, c, controlled).after
    case ClockTick(delta) => d.(engine := M.Advance(d.engine, delta).after)
    case Payment(device, amount, merchant) => d.(engine := M.Start(d.engine, device, amount, merchant).after)
    case Delivery(id) => d.(engine := M.Deliver(d.engine, id).after)
  }

  lemma TakeSettles(d: Data, step: Step, controlled: bool)
    requires Settled(d.engine) && Room(d)
    ensures Settled(Take(d, step, controlled).engine)
  {
    SettledIsSteppable(d.engine);
    hide Settled;
    hide M.Start;
    hide M.Advance;
    hide Execute;
    match step
    case Control(c) => ExecuteSettles(d, c, controlled);
    case ClockTick(delta) => AdvanceSettles(d.engine, delta);
    case Payment(device, amount, merchant) => StartSettles(d.engine, device, amount, merchant);
    case Delivery(id) => DeliverSettles(d.engine, id);
  }

  /** Where a run stands; it is out of range once the clock leaves no room for a deadline. */
  datatype Ran = OutOfRange | Standing(data: Data)

  ghost function Run(d: Data, steps: seq<Step>, controlled: bool): (r: Ran)
    requires Settled(d.engine)
    ensures r.Standing? ==> Settled(r.data.engine)
    decreases |steps|
  {
    if steps == [] then Standing(d)
    else
      var before := Run(d, steps[..|steps| - 1], controlled);
      if before.OutOfRange? || !Room(before.data) then OutOfRange
      else
        TakeSettles(before.data, steps[|steps| - 1], controlled);
        Standing(Take(before.data, steps[|steps| - 1], controlled))
  }

  /** The data that step `k` meets. */
  ghost predicate Meets(d: Data, steps: seq<Step>, k: nat, controlled: bool, met: Data)
    requires Settled(d.engine) && k <= |steps|
  {
    Run(d, steps[..k], controlled) == Standing(met) && Settled(met.engine) && Room(met)
  }

  predicate Remembers(d: Data, c: Command, v: Value) {
    c.id in d.commands && d.commands[c.id] == Entry(c.signature, v)
  }

  /** An applied command is remembered with its result. */
  lemma AppliedIsRemembered(d: Data, c: Command, controlled: bool)
    requires Settled(d.engine) && Room(d) && Applied(d, c, controlled)
    ensures Remembers(Execute(d, c, controlled).after, c, Execute(d, c, controlled).reply.value)
  {
    hide Perform;
    hide Settled;
  }

  /** A remembered command, sent again with the same content, returns its result; with other content it
      is refused. Either way nothing changes, and a stale generation field does not matter. */
  lemma ResendIsAnsweredFromMemory(d: Data, c: Command, v: Value, again: Command, controlled: bool)
    requires Settled(d.engine) && Room(d) && Remembers(d, c, v) && again.id == c.id && GoodId(c.id)
    ensures Execute(d, again, controlled)
         == Executed(d, if again.signature == c.signature then Done(v) else CommandConflict)
  {
    hide Perform;
    hide Settled;
  }

  lemma PerformKeepsMemory(d: Data, body: Body, controlled: bool)
    requires Settled(d.engine) && Room(d) && !body.ResetAll?
    ensures Perform(d, body, controlled).after.commands == d.commands
  {
    hide Settled;
  }

  /** Only an applied reset makes the server forget. */
  lemma StepKeepsMemory(d: Data, step: Step, controlled: bool, c: Command, v: Value)
    requires Settled(d.engine) && Room(d) && Remembers(d, c, v)
    requires step.Control? && step.command.body.ResetAll? ==> !Applied(d, step.command, controlled)
    ensures Remembers(Take(d, step, controlled), c, v)
  {
    if step.Control? {
      if !step.command.body.ResetAll? {
        PerformKeepsMemory(d, step.command.body, controlled);
      }
      hide Perform;
    }
    hide Settled;
  }

  ghost predicate NoResetBetween(d: Data, steps: seq<Step>, from: nat, until: nat, controlled: bool)
    requires Settled(d.engine) && until <= |steps|
  {
    forall k, met :: from < k < until && Meets(d, steps, k, controlled, met) ==>
      !(steps[k].Control? && steps[k].command.body.ResetAll? && Applied(met, steps[k].command, controlled))
  }

  lemma StepForward(d: Data, steps: seq<Step>, k: nat, controlled: bool, later: Data)
    requires Settled(d.engine) && k < |steps| && Meets(d, steps, k + 1, controlled, later)
    ensures Run(d, steps[..k], controlled).Standing?
    ensures var met := Run(d, steps[..k], controlled).data;
      Meets(d, steps, k, controlled, met) && later == Take(met, steps[k], controlled)
  {
    assert steps[..k + 1][..k] == steps[..k];
    hide Settled;
    hide Take;
  }

  /** From the step after which it is remembered, a command stays remembered until a reset. */
  lemma {:induction false} StaysRemembered(
    d: Data, steps: seq<Step>, from: nat, until: nat, controlled: bool, c: Command, v: Value, after: Data, met: Data)
    requires Settled(d.engine) && from < until <= |steps|
    requires Meets(d, steps, from + 1, controlled, after) && Remembers(after, c, v)
    requires Meets(d, steps, until, controlled, met) && NoResetBetween(d, steps, from, until, controlled)
    ensures Remembers(met, c, v)
    decreases until
  {
    hide Settled;
    hide Run;
    hide Take;
    hide Applied;
    hide Remembers;
    if until > from + 1 {
      StepForward(d, steps, until - 1, controlled, met);
      var last := Run(d, steps[..until - 1], controlled).data;
      StaysRemembered(d, steps, from, until - 1, controlled, c, v, after, last);
      StepKeepsMemory(last, steps[until - 1], controlled, c, v);
    }
  }

  /** Step `i` sends the id of step `j` again: applied at `j`, no reset applied since. */
  ghost predicate IsResend(d: Data, steps: seq<Step>, j: nat, i: nat, controlled: bool)
    requires Settled(d.engine)
  {
    && j < i < |steps| && steps[j].Control? && steps[i].Control?
    && steps[i].command.id == steps[j].command.id
    && (forall met :: Meets(d, steps, j, controlled, met) ==> Applied(met, steps[j].command, controlled))
    && NoResetBetween(d, steps, j, i, controlled)
  }

  /** A retry sends the same content again. */
  ghost predicate IsRetry(d: Data, steps: seq<Step>, j: nat, i: nat, controlled: bool)
    requires Settled(d.engine)
  {
    IsResend(d, steps, j, i, controlled) && steps[i].command.signature == steps[j].command.signature
  }

  /** Step `i` meets data that remember the command of step `j` with the result it had. */
  ghost predicate MeetsMemory(d: Data, steps: seq<Step>, j: nat, controlled: bool, met: Data, first: Data)
    requires Settled(d.engine) && j < |steps| && steps[j].Control?
  {
    && Meets(d, steps, j, controlled, first) && Execute(first, steps[j].command, controlled).reply.Done?
    && Remembers(met, steps[j].command, Execute(first, steps[j].command, controlled).reply.value)
  }

  lemma ResendMeetsMemory(d: Data, steps: seq<Step>, j: nat, i: nat, controlled: bool, met: Data) returns (first: Data)
    requires Settled(d.engine) && IsResend(d, steps, j, i, controlled) && Meets(d, steps, i, controlled, met)
    ensures MeetsMemory(d, steps, j, controlled, met, first) && GoodId(steps[j].command.id)
  {
    hide Settled;
    hide Take;
    hide NoResetBetween;
    EarlierMeets(d, steps, j + 1, i, controlled);
    var after := Run(d, steps[..j + 1], controlled).data;
    StepForward(d, steps, j, controlled, after);
    first := Run(d, steps[..j], controlled).data;
    var c := steps[j].command;
    assert Meets(d, steps, j, controlled, first) && Applied(first, c, controlled);
    AppliedIsRemembered(first, c, controlled);
    var v := Execute(first, c, controlled).reply.value;
    TakeControl(first, c, controlled);
    StaysRemembered(d, steps, j, i, controlled, c, v, after, met);
    AppliedIdIsGood(first, c, controlled);
  }

  /** The id of an applied command sent again with other content is refused and changes nothing, at any
      later point of any run short of an applied reset. */
  lemma ConflictChangesNothing(d: Data, steps: seq<Step>, j: nat, i: nat, controlled: bool, met: Data)
    requires Settled(d.engine) && IsResend(d, steps, j, i, controlled) && Meets(d, steps, i, controlled, met)
    requires steps[i].command.signature != steps[j].command.signature
    ensures Execute(met, steps[i].command, controlled) == Executed(met, CommandConflict)
  {
    hide Settled;
    hide Execute;
    hide NoResetBetween;
    var first := ResendMeetsMemory(d, steps, j, i, controlled, met);
    var v := Execute(first, steps[j].command, controlled).reply.value;
    hide Run;
    ResendIsAnsweredFromMemory(met, steps[j].command, v, steps[i].command, controlled);
  }

  /** A retry returns the result of the first time and changes nothing: commands apply at most once, and
      in particular a retried reset does not reset twice, whatever generation it names. */
  lemma RetryChangesNothing(d: Data, steps: seq<Step>, j: nat, i: nat, controlled: bool, met: Data)
    requires Settled(d.engine) && IsRetry(d, steps, j, i, controlled) && Meets(d, steps, i, controlled, met)
    ensures Execute(met, steps[i].command, controlled).after == met
    ensures exists first ::
      && Meets(d, steps, j, controlled, first)
      && Execute(met, steps[i].command, controlled).reply == Execute(first, steps[j].command, controlled).reply
  {
    hide Settled;
    hide Execute;
    hide NoResetBetween;
    var first := ResendMeetsMemory(d, steps, j, i, controlled, met);
    var v := Execute(first, steps[j].command, controlled).reply.value;
    hide Run;
    ResendIsAnsweredFromMemory(met, steps[j].command, v, steps[i].command, controlled);
  }

  lemma TakeControl(d: Data, c: Command, controlled: bool)
    requires Settled(d.engine) && Room(d)
    ensures Take(d, Control(c), controlled) == Execute(d, c, controlled).after
  {
    hide Execute;
  }

  lemma AppliedIdIsGood(d: Data, c: Command, controlled: bool)
    requires Settled(d.engine) && Room(d) && Applied(d, c, controlled)
    ensures GoodId(c.id)
  {
    hide Perform;
    hide Settled;
  }

  lemma {:induction false} EarlierMeets(d: Data, steps: seq<Step>, k: nat, i: nat, controlled: bool)
    requires Settled(d.engine) && k <= i <= |steps|
    requires Run(d, steps[..i], controlled).Standing? && Room(Run(d, steps[..i], controlled).data)
    ensures Run(d, steps[..k], controlled).Standing? && Room(Run(d, steps[..k], controlled).data)
    decreases i
  {
    hide Settled;
    hide Room;
    if k < i {
      assert steps[..i][..i - 1] == steps[..i - 1];
      EarlierMeets(d, steps, k, i - 1, controlled);
    }
  }

  // ---------------------------------------------------------------- runs with and without retries

  /** The steps that are not marked. */
  function Unmarked(steps: seq<Step>, marks: seq<bool>): seq<Step>
    requires |marks| == |steps|
  {
    if steps == [] then []
    else
      var n := |steps| - 1;
      Unmarked(steps[..n], marks[..n]) + if marks[n] then [] else [steps[n]]
  }

  /** Every marked step is a retry of an earlier one. */
  ghost predicate MarksRetries(d: Data, steps: seq<Step>, marks: seq<bool>, controlled: bool)
    requires Settled(d.engine) && |marks| == |steps|
  {
    forall i :: 0 <= i < |steps| && marks[i] ==> exists j :: 0 <= j < i && IsRetry(d, steps, j, i, controlled)
  }

  lemma RetryInPrefix(d: Data, steps: seq<Step>, j: nat, i: nat, n: nat, controlled: bool)
    requires Settled(d.engine) && IsRetry(d, steps, j, i, controlled) && i < n <= |steps|
    ensures IsRetry(d, steps[..n], j, i, controlled)
  {
    forall k: nat | k <= n ensures steps[..n][..k] == steps[..k] {}
    hide Settled;
    hide Applied;
    hide Run;
  }

  lemma MarksInPrefix(d: Data, steps: seq<Step>, marks: seq<bool>, n: nat, controlled: bool)
    requires Settled(d.engine) && |marks| == |steps| && n <= |steps| && MarksRetries(d, steps, marks, controlled)
    ensures MarksRetries(d, steps[..n], marks[..n], controlled)
  {
    hide Settled;
    hide IsRetry;
    forall i | 0 <= i < n && marks[..n][i] ensures exists j :: 0 <= j < i && IsRetry(d, steps[..n], j, i, controlled) {
      var j :| 0 <= j < i && IsRetry(d, steps, j, i, controlled);
      RetryInPrefix(d, steps, j, i, n, controlled);
    }
  }

  /** A run ends in the same state as the run from which all retries have been left out. */
  lemma {:induction false} RetriesLeaveNoTrace(d: Data, steps: seq<Step>, marks: seq<bool>, controlled: bool)
    requires Settled(d.engine) && |marks| == |steps| && MarksRetries(d, steps, marks, controlled)
    requires Run(d, steps, controlled).Standing?
    ensures Run(d, Unmarked(steps, marks), controlled) == Run(d, steps, controlled)
    decreases |steps|
  {
    hide Settled;
    hide Take;
    hide Room;
    hide IsRetry;
    if steps != [] {
      var n := |steps| - 1;
      var before := Run(d, steps[..n], controlled);
      MarksInPrefix(d, steps, marks, n, controlled);
      RetriesLeaveNoTrace(d, steps[..n], marks[..n], controlled);
      hide MarksRetries;
      var kept := Unmarked(steps[..n], marks[..n]);
      if marks[n] {
        assert kept + [] == kept;
        LastIsRetry(d, steps, marks, controlled);
      } else {
        assert (kept + [steps[n]])[..|kept|] == kept;
      }
    }
  }

  lemma LastIsRetry(d: Data, steps: seq<Step>, marks: seq<bool>, controlled: bool)
    requires Settled(d.engine) && |marks| == |steps| > 0 && marks[|steps| - 1]
    requires MarksRetries(d, steps, marks, controlled) && Run(d, steps, controlled).Standing?
    ensures Run(d, steps, controlled) == Run(d, steps[..|steps| - 1], controlled)
  {
    hide Settled;
    hide Room;
    hide IsRetry;
    hide Take;
    var n := |steps| - 1;
    var met := Run(d, steps[..n], controlled).data;
    assert Meets(d, steps, n, controlled, met);
    var j :| 0 <= j < n && IsRetry(d, steps, j, n, controlled);
    RetryChangesNothing(d, steps, j, n, controlled, met);
    RetryIsControl(d, steps, j, n, controlled);
    TakeControl(met, steps[n].command, controlled);
  }

  lemma RetryIsControl(d: Data, steps: seq<Step>, j: nat, i: nat, controlled: bool)
    requires Settled(d.engine) && IsRetry(d, steps, j, i, controlled)
    ensures i < |steps| && steps[i] == Control(steps[i].command)
  {
  }
}
