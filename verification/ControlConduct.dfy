/** What the control handler answers and does, told apart from the function that carries it out: which
    commands are turned away, and which call on the engine every other one is. */
module ControlConduct {
  import opened Prelude
  import opened EngineModel
  import opened EngineInvariants
  import opened EngineRuns
  import opened EngineLedger
  import opened EngineTerms
  import opened ControlPlane
  import opened ControlRuns
  import Conduct = EngineConduct
  import Wire = PaymentWire
  import M = EngineModel

  // ---------------------------------------------------------------- who is turned away

  predicate WellFormed(id: string) { id != "" && |id| <= 128 }

  /** The command names a generation that is not the engine's. */
  predicate NamesAnother(c: Command, generation: nat) {
    c.signature.generation.Some? && c.signature.generation != Some(generation)
  }

  /** An ill-formed id, a conflict and a stale generation are answered exactly for what they are, in this
      order, and change nothing; so whatever is carried out names the present generation or none. */
  lemma TurnedAwayExactly(d: Data, c: Command, controlled: bool)
    requires Settled(d.engine) && Room(d)
    ensures var e := Execute(d, c, controlled);
      && (e.reply.BadCommandId? <==> !WellFormed(c.id))
      && (e.reply.CommandConflict? <==>
            WellFormed(c.id) && c.id in d.commands && d.commands[c.id].signature != c.signature)
      && (e.reply.StaleGeneration? <==> WellFormed(c.id) && c.id !in d.commands && NamesAnother(c, d.engine.generation))
      && (e.reply.BadCommandId? || e.reply.CommandConflict? || e.reply.StaleGeneration? ==> e.after == d)
    ensures Applied(d, c, controlled) ==> !NamesAnother(c, d.engine.generation)
  {
    hide Settled;
    hide Room;
    hide Perform;
  }

  /** In any run, a command that names a generation is carried out only if that is the generation of the
      engine it meets. */
  lemma CarriedOutInItsGeneration(d: Data, steps: seq<Step>, i: nat, controlled: bool, met: Data)
    requires Settled(d.engine) && i < |steps| && steps[i].Control? && Meets(d, steps, i, controlled, met)
    requires Applied(met, steps[i].command, controlled) && steps[i].command.signature.generation.Some?
    ensures steps[i].command.signature.generation == Some(met.engine.generation)
  {
    TurnedAwayExactly(met, steps[i].command, controlled);
    hide Settled;
    hide Execute;
    hide ControlRuns.Run;
  }

  lemma ExecuteGeneration(d: Data, c: Command, controlled: bool)
    requires Settled(d.engine) && Room(d)
    ensures Execute(d, c, controlled).after.engine.generation
         == d.engine.generation + if Applied(d, c, controlled) && c.body.ResetAll? then 1 else 0
  {
    ExecuteFollows(d, c, controlled);
    hide Settled;
    hide Execute;
  }

  lemma GenerationNeverFalls(d: Data, step: Step, controlled: bool)
    requires Settled(d.engine) && Room(d)
    ensures d.engine.generation <= Take(d, step, controlled).engine.generation
  {
    SettledIsSteppable(d.engine);
    hide Settled;
    hide Execute;
    hide M.Start;
    hide M.Advance;
    hide Actionable;
    hide AllSteppable;
    hide Room;
    match step {
      case Control(c) => ExecuteGeneration(d, c, controlled);
      case ClockTick(delta) => ClockFollows(d, delta);
      case Payment(device, amount, merchant) => PurchaseFollows(d, device, amount, merchant);
      case Delivery(_) =>
    }
  }

  lemma {:induction false} GenerationsRise(d: Data, steps: seq<Step>, k: nat, i: nat, controlled: bool)
    requires Settled(d.engine) && k <= i <= |steps| && ControlRuns.Run(d, steps[..i], controlled).Standing?
    ensures ControlRuns.Run(d, steps[..k], controlled).Standing?
    ensures ControlRuns.Run(d, steps[..k], controlled).data.engine.generation <= ControlRuns.Run(d, steps[..i], controlled).data.engine.generation
    decreases i
  {
    hide Settled;
    hide Take;
    hide Room;
    if k < i {
      assert steps[..i][..i - 1] == steps[..i - 1];
      GenerationsRise(d, steps, k, i - 1, controlled);
      GenerationNeverFalls(ControlRuns.Run(d, steps[..i - 1], controlled).data, steps[i - 1], controlled);
    }
  }

  /** After an applied reset, at any later point of any run, a command that is not remembered and names a
      generation from before the reset changes nothing: it is stale, or its id is ill-formed. */
  lemma ResetShutsOutOldCommands(
    d: Data, steps: seq<Step>, j: nat, i: nat, controlled: bool, first: Data, met: Data, c: Command)
    requires Settled(d.engine) && j < i <= |steps| && steps[j].Control? && steps[j].command.body.ResetAll?
    requires Meets(d, steps, j, controlled, first) && Applied(first, steps[j].command, controlled)
    requires Meets(d, steps, i, controlled, met) && c.id !in met.commands
    requires c.signature.generation.Some? && c.signature.generation.value <= first.engine.generation
    ensures var e := Execute(met, c, controlled); e.after == met && (e.reply.StaleGeneration? || e.reply.BadCommandId?)
  {
    hide Settled;
    hide Execute;
    hide Take;
    EarlierMeets(d, steps, j + 1, i, controlled);
    var after := ControlRuns.Run(d, steps[..j + 1], controlled).data;
    StepForward(d, steps, j, controlled, after);
    TakeControl(first, steps[j].command, controlled);
    ExecuteGeneration(first, steps[j].command, controlled);
    GenerationsRise(d, steps, j + 1, i, controlled);
    hide ControlRuns.Run;
    TurnedAwayExactly(met, c, controlled);
  }

  /** The same in the system of listener, connections and clock: once a reset to `g` has been carried out, at
      whatever point of its announcement, an unremembered command naming an earlier generation changes
      nothing anywhere. */
  lemma AnnouncedResetShutsOutOldCommands(epoch: nat, steps: seq<Wire.Step>, controlled: bool, g: nat, c: Command)
    requires Wire.Safe(Wire.Initial(epoch)) && Wire.Possible(Wire.Initial(epoch), steps, controlled)
    requires var w := Wire.Run(Wire.Initial(epoch), steps, controlled);
      && Room(w.data) && (g in w.unsent || g in w.waiting || g in w.acknowledged) && c.id !in w.data.commands
    requires c.signature.generation.Some? && c.signature.generation.value < g
    ensures var w := Wire.Run(Wire.Initial(epoch), steps, controlled); Settled(w.data.engine) && Wire.ControlOn(w, c, controlled) == w
  {
    var w := Wire.Run(Wire.Initial(epoch), steps, controlled);
    assert Wire.Safe(w);
    hide Wire.Run;
    hide Wire.Possible;
    Wire.SafeIsSettled(w);
    assert g <= w.data.engine.generation by { hide Settled; hide Wire.Records; }
    hide Wire.Safe;
    hide Settled;
    hide Execute;
    TurnedAwayExactly(w.data, c, controlled);
  }

  // ---------------------------------------------------------------- what the others are

  predicate Due(d: Data, c: Command) {
    WellFormed(c.id) && c.id !in d.commands && !NamesAnother(c, d.engine.generation)
  }

  /** A command that is not turned away and stands for an engine call is that call, and is answered as done
      exactly when the call meets no fault; a reset forgets the saved scenarios besides. */
  lemma CommandIsItsCall(d: Data, c: Command, controlled: bool)
    requires Settled(d.engine) && Room(d) && Due(d, c) && CallOf(d, c.body, controlled).Some?
    ensures var call := CallOf(d, c.body, controlled).value; var e := Execute(d, c, controlled);
      && e.after.engine == Apply(d.engine, call).after
      && (e.reply.Done? <==> Apply(d.engine, call).fault.None?) && (!e.reply.Done? ==> e.reply.CommandRejected?)
      && e.after.scenarios == (if c.body.ResetAll? then map[] else d.scenarios)
  {
    PerformIsItsCall(d, c.body, controlled);
    hide Settled;
    hide Perform;
    hide Apply;
    hide CallOf;
  }

  /** The reply to what is carried out tells the state it left: the queue's length, the new payment's id, the
      clock, the new generation; and besides the reply only a reset announces its generation, and only a
      reset, which goes online, and a transport command say what transport is wanted. */
  lemma RepliesTell(d: Data, c: Command, controlled: bool)
    requires Settled(d.engine) && Room(d) && Applied(d, c, controlled)
    ensures var e := Execute(d, c, controlled); var t, v, told := e.after.engine, e.reply.value, Announced(c.body, e.after.engine.generation);
      && (c.body.ArmInline? || c.body.ArmSaved? ==> v == Queued(|t.queue|))
      && (c.body.Purchase? || c.body.Standalone? ==> v == Purchased(NextId(d.engine)) && NextId(d.engine) in t.operations)
      && (c.body.ManualInput? ==> v.InputTaken? && Some(v.operationId) == c.body.operationId)
      && (c.body.AdvanceClock? ==> v == Clock(t.nowMs))
      && (c.body.SaveScenario? ==> c.body.scenario.Some? && v == Saved(c.body.scenario.value.id))
      && (c.body.SetTransport? ==> c.body.online.Some? && v == RequestedOnline(c.body.online.value))
      && (c.body.ResetAll? ==> v == NewGeneration(t.generation) && t.generation == d.engine.generation + 1)
      && told.generation == (if c.body.ResetAll? then Some(t.generation) else None)
      && told.online == (if c.body.ResetAll? then Some(true) else if c.body.SetTransport? then c.body.online else None)
  {
    PerformTells(d, c.body, controlled);
    hide Settled;
    hide Room;
    hide Perform;
  }

  lemma PerformTells(d: Data, body: Body, controlled: bool)
    requires Settled(d.engine) && Room(d) && Perform(d, body, controlled).value.Some?
    ensures var p := Perform(d, body, controlled); var t, v := p.after.engine, p.value.value;
      && (body.ArmInline? || body.ArmSaved? ==> v == Queued(|t.queue|))
      && (body.Purchase? || body.Standalone? ==> v == Purchased(NextId(d.engine)) && NextId(d.engine) in t.operations)
      && (body.ManualInput? ==> v.InputTaken? && Some(v.operationId) == body.operationId)
      && (body.AdvanceClock? ==> v == Clock(t.nowMs))
      && (body.SaveScenario? ==> body.scenario.Some? && v == Saved(body.scenario.value.id))
      && (body.SetTransport? ==> body.online.Some? && v == RequestedOnline(body.online.value))
      && (body.ResetAll? ==> v == NewGeneration(t.generation) && t.generation == d.engine.generation + 1)
  {
    if body.Purchase? {
      PurchaseTells(d, body, controlled);
      hide Perform;
    } else if body.Standalone? {
      StandaloneTells(d, body, controlled);
      hide Perform;
    } else if body.AdvanceClock? {
      ClockTells(d, body, controlled);
      hide Perform;
    } else {
      SettledIsSteppable(d.engine);
      hide Settled;
      hide Room;
      hide Actionable;
      hide AllSteppable;
      hide M.Start;
      hide M.Act;
      hide M.Advance;
      hide M.SetDevice;
      hide PerformStandalone;
      hide Idle;
      hide Met;
    }
    hide Settled;
  }

  lemma PurchaseTells(d: Data, body: Body, controlled: bool)
    requires Settled(d.engine) && Room(d) && body.Purchase? && Perform(d, body, controlled).value.Some?
    ensures var p := Perform(d, body, controlled);
      p.value.value == Purchased(NextId(d.engine)) && NextId(d.engine) in p.after.engine.operations
  {
    SettledIsSteppable(d.engine);
    hide M.Start;
    if M.Start(d.engine, body.deviceId.value, body.amount.value, body.merchant).fault.None? {
      StartedTerms(d.engine, body.deviceId.value, body.amount.value, body.merchant);
    }
    hide Settled;
    hide Actionable;
    hide AllSteppable;
    hide NextId;
  }

  lemma StandaloneTells(d: Data, body: Body, controlled: bool)
    requires Settled(d.engine) && Room(d) && body.Standalone? && Perform(d, body, controlled).value.Some?
    ensures var p := Perform(d, body, controlled);
      p.value.value == Purchased(NextId(d.engine)) && NextId(d.engine) in p.after.engine.operations
  {
    assert body.scenario.Some? && body.amount.Some? by { hide PerformStandalone; hide Settled; }
    PerformsStandalone(d, body, controlled);
    hide Perform;
    StandaloneIsAtomic(d, body.scenario.value, body.amount.value);
    hide PerformStandalone;
    hide Settled;
    hide For;
    hide NextId;
  }

  lemma ClockTells(d: Data, body: Body, controlled: bool)
    requires Settled(d.engine) && Room(d) && body.AdvanceClock? && Perform(d, body, controlled).value.Some?
    ensures Perform(d, body, controlled).value.value == Clock(Perform(d, body, controlled).after.engine.nowMs)
  {
    SettledIsSteppable(d.engine);
    assert body.ms.Some? by { hide Settled; hide M.Advance; }
    ClockAfter(d.engine, body.ms.value);
    hide Settled;
    hide Actionable;
    hide AllSteppable;
    hide M.Advance;
  }

  /** An assertion passes exactly when everything it asserts is so, and changes nothing. */
  lemma AssertionPassesExactly(d: Data, c: Command, controlled: bool)
    requires Settled(d.engine) && Room(d) && Due(d, c) && c.body.Assertion?
    ensures var e, s := Execute(d, c, controlled), d.engine;
      && e.after.engine == s && e.after.scenarios == d.scenarios
      && (e.reply.Done? <==>
            && (c.body.queueEmpty ==> s.queue == [])
            && (c.body.idle ==> forall id :: id in s.operations ==> !Conduct.Underway(s.operations[id].stage))
            && (forall i :: 0 <= i < |c.body.expected| ==> Agrees(c.body.expected[i], s.counters)))
      && (e.reply.Done? ==> e.reply.value == Passed(s.counters)) && (!e.reply.Done? ==> e.reply.CommandRejected?)
  {
    hide Settled;
    hide Room;
    NotUnderwayIsTerminal(d.engine.operations);
    assert Met(d.engine.counters, c.body.expected)
      <==> forall i :: 0 <= i < |c.body.expected| ==> Agrees(c.body.expected[i], d.engine.counters);
    hide Idle;
    hide Met;
  }

  /** The counter named has the value named. */
  predicate Agrees(e: Expectation, c: Counters) {
    e.expected.Some?
    && match e.counter
       case Requests => c.requests == e.expected.value
       case AcceptedCount => c.accepted == e.expected.value
       case Approvals => c.approvals == e.expected.value
       case Reversals => c.reversals == e.expected.value
       case DeliveredCount => c.delivered == e.expected.value
  }

  lemma NotUnderwayIsTerminal(ops: map<string, Operation>)
    ensures Idle(ops) <==> forall id :: id in ops ==> !Conduct.Underway(ops[id].stage)
  {
    forall id | id in ops ensures Conduct.Underway(ops[id].stage) <==> !ops[id].stage.Terminal() {}
  }

  /** A scenario saved under valid rules is there under its id and nothing else changes; then arming it by id
      is arming it directly. */
  lemma SavedIsArmedAlike(d: Data, saving: Command, arming: Command, direct: Command, scenario: Scenario, controlled: bool)
    requires Settled(d.engine) && Room(d) && Due(d, saving) && saving.body == SaveScenario(Some(scenario))
    ensures var saved := Execute(d, saving, controlled);
      && (saved.reply.Done? <==> Conduct.Rules(scenario)) && saved.after.engine == d.engine
      && saved.after.scenarios == (if Conduct.Rules(scenario) then d.scenarios[scenario.id := scenario] else d.scenarios)
    ensures Conduct.Rules(scenario) && arming.body == ArmSaved(scenario.id) && direct.body == ArmInline(Some(scenario))
            && Due(Execute(d, saving, controlled).after, arming) && Due(d, direct) ==>
      && Settled(Execute(d, saving, controlled).after.engine) && Room(Execute(d, saving, controlled).after)
      && Execute(Execute(d, saving, controlled).after, arming, controlled).after.engine == Execute(d, direct, controlled).after.engine
      && Execute(Execute(d, saving, controlled).after, arming, controlled).reply == Execute(d, direct, controlled).reply
  {
    Conduct.ValidIsByTheRules(scenario);
    hide Settled;
    hide Conduct.Rules;
    hide Scenario.Validate;
    hide M.Arm;
  }

  /** A purchase of the amount would be admitted with this scenario, were it the device's first. */
  ghost predicate Suitable(s: Snapshot, scenario: Scenario, amount: nat) {
    && scenario.deviceId in s.devices && 1 <= amount <= 999_999_999
    && Conduct.Reachable(s.devices[scenario.deviceId]) && !Conduct.TakingPayment(s.operations, scenario.deviceId)
    && Conduct.Suits(scenario, amount, s.devices[scenario.deviceId]) && !scenario.delivery.DisconnectBeforeAccept?
  }

  /** A standalone start succeeds exactly when nothing is queued for the device, the scenario meets the rules,
      and a purchase of the amount would be admitted with it. */
  lemma StandaloneExactly(d: Data, c: Command, scenario: Scenario, amount: nat, controlled: bool)
    requires Settled(d.engine) && Room(d) && Due(d, c) && c.body == Standalone(Some(scenario), Some(amount))
    ensures Execute(d, c, controlled).reply.Done?
       <==> For(d.engine.queue, scenario.deviceId) == [] && Conduct.Rules(scenario) && Suitable(d.engine, scenario, amount)
  {
    StandalonePerformed(d, scenario, amount);
    hide Settled;
    hide Room;
    hide PerformStandalone;
    hide For;
    hide Conduct.Rules;
    hide Suitable;
  }

  lemma StandalonePerformed(d: Data, scenario: Scenario, amount: nat)
    requires Settled(d.engine) && Room(d)
    ensures PerformStandalone(d, scenario, amount).value.Some?
       <==> For(d.engine.queue, scenario.deviceId) == [] && Conduct.Rules(scenario) && Suitable(d.engine, scenario, amount)
  {
    var s := d.engine;
    assert QueueUsable(s.queue) by { hide For; }
    SettledIsSteppable(s);
    NoneQueued(s.queue, scenario.deviceId);
    StandaloneParts(d, scenario, amount);
    hide PerformStandalone;
    hide QueueUsable;
    hide For;
    hide Suitable;
    hide M.Start;
    hide Scenario.Validate;
    hide Conduct.Rules;
    Conduct.ArmedBehind(s, scenario, "");
    Conduct.ValidIsByTheRules(scenario);
    SuitableIsKnown(s, scenario, amount);
    if For(s.queue, scenario.deviceId) == [] && M.Arm(s, scenario).fault.None? {
      ArmedStart(s, scenario, amount);
    }
    hide Settled;
    hide M.Arm;
  }

  lemma NoneQueued(queue: seq<Scenario>, device: string)
    requires QueueUsable(queue)
    ensures FirstFor(queue, device).None? <==> For(queue, device) == []
  {
    SpendIsFifo(queue, device, "");
    hide For;
  }

  lemma StandaloneParts(d: Data, scenario: Scenario, amount: nat)
    requires Settled(d.engine) && Room(d)
    ensures M.Arm(d.engine, scenario).fault.None? ==>
      AllSteppable(M.Arm(d.engine, scenario).after.operations) && QueueUsable(M.Arm(d.engine, scenario).after.queue)
    ensures PerformStandalone(d, scenario, amount).value.Some?
       <==> FirstFor(d.engine.queue, scenario.deviceId).None? && M.Arm(d.engine, scenario).fault.None?
            && M.Start(M.Arm(d.engine, scenario).after, scenario.deviceId, amount, None).fault.None?
  {
    ArmSettles(d.engine, scenario);
    var armed := M.Arm(d.engine, scenario).after;
    SettledIsSteppable(armed);
    assert QueueUsable(armed.queue) by { hide M.Arm; hide M.Start; }
    hide Settled;
    hide M.Arm;
    hide M.Start;
    hide Actionable;
    hide QueueUsable;
    hide NextId;
  }

  lemma SuitableIsKnown(s: Snapshot, scenario: Scenario, amount: nat)
    ensures Suitable(s, scenario, amount) ==> scenario.deviceId in s.devices
  {
  }

  lemma ArmedStart(s: Snapshot, scenario: Scenario, amount: nat)
    requires Settled(s) && ClockRoom(s) && For(s.queue, scenario.deviceId) == [] && M.Arm(s, scenario).fault.None?
    ensures var armed := M.Arm(s, scenario).after;
      && AllSteppable(armed.operations) && QueueUsable(armed.queue)
      && (M.Start(armed, scenario.deviceId, amount, None).fault.None? <==> Suitable(s, scenario, amount))
  {
    ArmSettles(s, scenario);
    ArmRoom(s, scenario);
    Conduct.ArmedBehind(s, scenario, "");
    var armed := M.Arm(s, scenario).after;
    assert QueueUsable(armed.queue);
    hide Settled;
    hide M.Arm;
    hide M.Start;
    hide For;
    hide QueueUsable;
    Conduct.StartAdmittedExactly(armed, scenario.deviceId, amount, None);
    hide AllSteppable;
    assert [] + [scenario] == [scenario];
    hide Conduct.TakingPayment;
    hide Conduct.Suits;
    hide Conduct.Reachable;
  }

  lemma ArmRoom(s: Snapshot, scenario: Scenario)
    ensures ClockRoom(M.Arm(s, scenario).after) == ClockRoom(s)
  {
  }
}
