/** The control server's command handler: idempotent commands over the payment engine. */
module ControlPlane {
  import opened Prelude
  import opened EngineModel
  import opened EngineInvariants
  import opened EngineRuns
  import M = EngineModel
  import Object = EngineObject

  // ---------------------------------------------------------------- data

  /** A control command after its JSON has been decoded; None is a field that is absent or ill-typed. */
  datatype Body =
    | SaveScenario(scenario: Option<Scenario>)
    | ArmInline(scenario: Option<Scenario>)
    | ArmSaved(scenarioId: string)
    | ConfigureDevice(device: Option<Device>)
    | Purchase(deviceId: Option<string>, amount: Option<nat>, merchant: Option<string>)
    | Standalone(scenario: Option<Scenario>, amount: Option<nat>)
    | ManualInput(operationId: Option<string>, input: Option<Input>)
    | AdvanceClock(ms: Option<nat>)
    | SetTransport(online: Option<bool>)
    | ResetAll
    | Assertion(queueEmpty: bool, idle: bool, expected: seq<Expectation>)
    | UnknownCommand

  datatype Counter = Requests | AcceptedCount | Approvals | Reversals | DeliveredCount

  /** A counter asserted to a value; None is a value that is no unsigned integer. */
  datatype Expectation = Expectation(counter: Counter, expected: Option<nat>)

  /** What identifies a command besides its id: resource and payload text, and the generation named. */
  datatype Signature = Signature(content: string, generation: Option<nat>)

  datatype Command = Command(id: string, signature: Signature, body: Body)

  datatype Value =
    | Saved(scenarioId: string) | Queued(length: nat) | Configured | Purchased(operationId: string)
    | InputTaken(operationId: string) | Clock(nowMs: nat) | RequestedOnline(online: bool)
    | NewGeneration(generation: nat) | Passed(counters: Counters)

  datatype Reply = Done(value: Value) | BadCommandId | CommandConflict | StaleGeneration | CommandRejected

  datatype Entry = Entry(signature: Signature, value: Value)

  /** What the lock protects. */
  datatype Data = Data(engine: Snapshot, scenarios: map<string, Scenario>, commands: map<string, Entry>)

  // ---------------------------------------------------------------- one command

  /** The data after the command's own work, and its result unless it was rejected. */
  datatype Performed = Performed(after: Data, value: Option<Value>)

  function Lift(d: Data, a: Answer, value: Value): Performed {
    Performed(d.(engine := a.after), if a.fault.None? then Some(value) else None)
  }

  function CounterOf(c: Counters, counter: Counter): nat {
    match counter
    case Requests => c.requests
    case AcceptedCount => c.accepted
    case Approvals => c.approvals
    case Reversals => c.reversals
    case DeliveredCount => c.delivered
  }

  predicate Met(c: Counters, expected: seq<Expectation>) {
    forall i :: 0 <= i < |expected| ==> expected[i].expected == Some(CounterOf(c, expected[i].counter))
  }

  predicate AnyQueued(queue: seq<Scenario>, device: string) { FirstFor(queue, device).Some? }

  predicate Idle(ops: map<string, Operation>) { forall id :: id in ops ==> ops[id].stage.Terminal() }

  /** A start in reach of this command has room for its deadline. */
  predicate Room(d: Data) { ClockRoom(d.engine) }

  ghost function Perform(d: Data, body: Body, controlled: bool): Performed
    requires Settled(d.engine) && Room(d)
  {
    SettledIsSteppable(d.engine);
    match body
    case SaveScenario(scenario) =>
      if scenario.None? || !scenario.value.Valid() then Performed(d, None)
      else Performed(d.(scenarios := d.scenarios[scenario.value.id := scenario.value]), Some(Saved(scenario.value.id)))
    case ArmInline(scenario) =>
      if scenario.None? then Performed(d, None) else PerformArm(d, scenario.value)
    case ArmSaved(id) =>
      if id !in d.scenarios then Performed(d, None) else PerformArm(d, d.scenarios[id])
    case ConfigureDevice(device) =>
      if device.None? then Performed(d, None) else Lift(d, M.SetDevice(d.engine, device.value), Configured)
    case Purchase(device, amount, merchant) =>
      if device.None? || amount.None? then Performed(d, None)
      else Lift(d, M.Start(d.engine, device.value, amount.value, merchant), Purchased(NextId(d.engine)))
    case Standalone(scenario, amount) =>
      if scenario.None? || amount.None? then Performed(d, None)
      else PerformStandalone(d, scenario.value, amount.value)
    case ManualInput(id, input) =>
      if id.None? || input.None? then Performed(d, None)
      else Lift(d, M.Act(d.engine, id.value, input.value), InputTaken(id.value))
    case AdvanceClock(ms) =>
      if !controlled || ms.None? || ms.value > HOUR_MS then Performed(d, None)
      else
        Lift(d, M.Advance(d.engine, ms.value), Clock(d.engine.nowMs + ms.value))
    case SetTransport(online) =>
      if online.None? then Performed(d, None) else Performed(d, Some(RequestedOnline(online.value)))
    case ResetAll =>
      Performed(Data(M.Reset(d.engine), map[], map[]), Some(NewGeneration(d.engine.generation + 1)))
    case Assertion(queueEmpty, idle, expected) =>
      if (queueEmpty && d.engine.queue != []) || (idle && !Idle(d.engine.operations)) || !Met(d.engine.counters, expected)
      then Performed(d, None)
      else Performed(d, Some(Passed(d.engine.counters)))
    case UnknownCommand => Performed(d, None)
  }

  function PerformArm(d: Data, scenario: Scenario): Performed {
    Lift(d, M.Arm(d.engine, scenario), Queued(|d.engine.queue| + 1))
  }

  /** Arm and start on a copy; only if both succeed does the copy replace the engine. */
  ghost function PerformStandalone(d: Data, scenario: Scenario, amount: nat): Performed
    requires Settled(d.engine) && Room(d)
  {
    if AnyQueued(d.engine.queue, scenario.deviceId) then Performed(d, None)
    else
      ArmSettles(d.engine, scenario);
      var armed := M.Arm(d.engine, scenario);
      if armed.fault.Some? then Performed(d, None)
      else
        SettledIsSteppable(armed.after);
        var started := M.Start(armed.after, scenario.deviceId, amount, None);
        if started.fault.Some? then Performed(d, None)
        else Performed(d.(engine := started.after), Some(Purchased(NextId(d.engine))))
  }

  datatype Executed = Executed(after: Data, reply: Reply)

  predicate GoodId(id: string) { 1 <= |id| <= 128 }

  ghost function Execute(d: Data, c: Command, controlled: bool): Executed
    requires Settled(d.engine) && Room(d)
  {
    if !GoodId(c.id) then Executed(d, BadCommandId)
    else if c.id in d.commands then
      Executed(d, if d.commands[c.id].signature == c.signature then Done(d.commands[c.id].value) else CommandConflict)
    else if c.signature.generation.Some? && c.signature.generation.value != d.engine.generation then
      Executed(d, StaleGeneration)
    else
      var p := Perform(d, c.body, controlled);
      if p.value.None? then Executed(p.after, CommandRejected)
      else
        Executed(p.after.(commands := p.after.commands[c.id := Entry(c.signature, p.value.value)]), Done(p.value.value))
  }

  /** The engine call a command stands for, if it stands for one. */
  function CallOf(d: Data, body: Body, controlled: bool): Option<Call> {
    match body
    case ArmInline(scenario) => if scenario.Some? then Some(ArmCall(scenario.value)) else None
    case ArmSaved(id) => if id in d.scenarios then Some(ArmCall(d.scenarios[id])) else None
    case ConfigureDevice(device) => if device.Some? then Some(SetDeviceCall(device.value)) else None
    case Purchase(device, amount, merchant) =>
      if device.Some? && amount.Some? then Some(StartCall(device.value, amount.value, merchant)) else None
    case ManualInput(id, input) => if id.Some? && input.Some? then Some(ActCall(id.value, input.value)) else None
    case AdvanceClock(ms) => if controlled && ms.Some? && ms.value <= 3_600_000 then Some(AdvanceCall(ms.value)) else None
    case ResetAll => Some(ResetCall)
    case _ => None
  }

  lemma PerformIsItsCall(d: Data, body: Body, controlled: bool)
    requires Settled(d.engine) && Room(d) && CallOf(d, body, controlled).Some?
    ensures var call := CallOf(d, body, controlled).value; var p := Perform(d, body, controlled);
      && p.after.engine == Apply(d.engine, call).after && (p.value.Some? <==> Apply(d.engine, call).fault.None?)
      && p.after.scenarios == (if body.ResetAll? then map[] else d.scenarios)
  {
    if body.ArmInline? || body.ArmSaved? || body.ConfigureDevice? {
      SettingUpIsItsCall(d, body, controlled);
    } else if body.Purchase? {
      PurchaseIsItsCall(d, body, controlled);
    } else if body.ManualInput? {
      InputIsItsCall(d, body, controlled);
    } else {
      RunningIsItsCall(d, body, controlled);
    }
    hide *;
  }

  lemma SettingUpIsItsCall(d: Data, body: Body, controlled: bool)
    requires Settled(d.engine) && Room(d) && CallOf(d, body, controlled).Some?
    requires body.ArmInline? || body.ArmSaved? || body.ConfigureDevice?
    ensures var call := CallOf(d, body, controlled).value; var p := Perform(d, body, controlled);
      && p.after.engine == Apply(d.engine, call).after && (p.value.Some? <==> Apply(d.engine, call).fault.None?)
      && p.after.scenarios == (if body.ResetAll? then map[] else d.scenarios)
  {
    SettledIsSteppable(d.engine);
    hide Settled;
    hide Actionable;
    hide AllSteppable;
    hide M.Arm;
    hide M.SetDevice;
    hide M.Start;
    hide M.Act;
    hide M.Advance;
    hide M.Reset;
    hide PerformStandalone;
    hide NextId;
    hide Idle;
    hide Met;
  }

  lemma LiftIsTheAnswer(d: Data, a: Answer, value: Value)
    ensures Lift(d, a, value).after == d.(engine := a.after) && (Lift(d, a, value).value.Some? <==> a.fault.None?)
  {
  }

  lemma PurchaseIsItsCall(d: Data, body: Body, controlled: bool)
    requires Settled(d.engine) && Room(d) && CallOf(d, body, controlled).Some?
    requires body.Purchase?
    ensures var call := CallOf(d, body, controlled).value; var p := Perform(d, body, controlled);
      && p.after.engine == Apply(d.engine, call).after && (p.value.Some? <==> Apply(d.engine, call).fault.None?)
      && p.after.scenarios == (if body.ResetAll? then map[] else d.scenarios)
  {
    SettledIsSteppable(d.engine);
    LiftIsTheAnswer(d, M.Start(d.engine, body.deviceId.value, body.amount.value, body.merchant), Purchased(NextId(d.engine)));
    hide Settled;
    hide Actionable;
    hide AllSteppable;
    hide M.Arm;
    hide M.SetDevice;
    hide M.Start;
    hide M.Act;
    hide M.Advance;
    hide M.Reset;
    hide PerformStandalone;
    hide NextId;
    hide Idle;
    hide Met;
    hide Lift;
    hide Room;
  }

  lemma InputIsItsCall(d: Data, body: Body, controlled: bool)
    requires Settled(d.engine) && Room(d) && CallOf(d, body, controlled).Some?
    requires body.ManualInput?
    ensures var call := CallOf(d, body, controlled).value; var p := Perform(d, body, controlled);
      && p.after.engine == Apply(d.engine, call).after && (p.value.Some? <==> Apply(d.engine, call).fault.None?)
      && p.after.scenarios == (if body.ResetAll? then map[] else d.scenarios)
  {
    SettledIsSteppable(d.engine);
    LiftIsTheAnswer(d, M.Act(d.engine, body.operationId.value, body.input.value), InputTaken(body.operationId.value));
    hide Settled;
    hide Actionable;
    hide AllSteppable;
    hide M.Arm;
    hide M.SetDevice;
    hide M.Start;
    hide M.Act;
    hide M.Advance;
    hide M.Reset;
    hide PerformStandalone;
    hide NextId;
    hide Idle;
    hide Met;
    hide Lift;
    hide Room;
  }

  lemma RunningIsItsCall(d: Data, body: Body, controlled: bool)
    requires Settled(d.engine) && Room(d) && CallOf(d, body, controlled).Some?
    requires !body.ArmInline? && !body.ArmSaved? && !body.ConfigureDevice? && !body.Purchase? && !body.ManualInput?
    ensures var call := CallOf(d, body, controlled).value; var p := Perform(d, body, controlled);
      && p.after.engine == Apply(d.engine, call).after && (p.value.Some? <==> Apply(d.engine, call).fault.None?)
      && p.after.scenarios == (if body.ResetAll? then map[] else d.scenarios)
  {
    SettledIsSteppable(d.engine);
    hide Settled;
    hide Actionable;
    hide AllSteppable;
    hide M.Arm;
    hide M.SetDevice;
    hide M.Start;
    hide M.Act;
    hide M.Advance;
    hide M.Reset;
    hide PerformStandalone;
    hide NextId;
    hide Idle;
    hide Met;
  }

  /** A command that stands for no engine call, and is no complete standalone start, leaves the engine alone. */
  lemma PerformElse(d: Data, body: Body, controlled: bool)
    requires Settled(d.engine) && Room(d) && CallOf(d, body, controlled).None?
    requires !(body.Standalone? && body.scenario.Some? && body.amount.Some?)
    ensures Perform(d, body, controlled).after.engine == d.engine && Perform(d, body, controlled).after.commands == d.commands
  {
    SettledIsSteppable(d.engine);
    hide Settled;
    hide Actionable;
    hide AllSteppable;
    hide M.Arm;
    hide M.SetDevice;
    hide M.Start;
    hide M.Act;
    hide M.Advance;
    hide M.Reset;
    hide PerformStandalone;
    hide NextId;
    hide Idle;
    hide Met;
  }

  lemma PerformSettles(d: Data, body: Body, controlled: bool)
    requires Settled(d.engine) && Room(d)
    ensures Settled(Perform(d, body, controlled).after.engine)
  {
    var call := CallOf(d, body, controlled);
    if call.Some? {
      PerformIsItsCall(d, body, controlled);
      CallHasRoom(d, call.value);
      hide Settled;
      hide Perform;
      hide CallOf;
      hide Apply;
      ApplySettles(d.engine, call.value);
    } else if body.Standalone? && body.scenario.Some? && body.amount.Some? {
      StandaloneSettles(d, body.scenario.value, body.amount.value);
      PerformsStandalone(d, body, controlled);
      hide Settled;
      hide Perform;
      hide PerformStandalone;
      hide CallOf;
    } else {
      PerformElse(d, body, controlled);
      hide Settled;
      hide Perform;
      hide CallOf;
    }
  }

  lemma CallHasRoom(d: Data, call: Call)
    requires Room(d)
    ensures EngineRuns.Possible(d.engine, call)
  {
  }

  lemma PerformsStandalone(d: Data, body: Body, controlled: bool)
    requires Settled(d.engine) && Room(d) && body.Standalone? && body.scenario.Some? && body.amount.Some?
    ensures Perform(d, body, controlled) == PerformStandalone(d, body.scenario.value, body.amount.value)
  {
    hide Settled;
    hide PerformStandalone;
  }

  lemma StandaloneSettles(d: Data, scenario: Scenario, amount: nat)
    requires Settled(d.engine) && Room(d)
    ensures Settled(PerformStandalone(d, scenario, amount).after.engine)
  {
    ArmSettles(d.engine, scenario);
    hide Settled;
    hide M.Start;
    var armed := M.Arm(d.engine, scenario);
    if armed.fault.None? {
      StartSettles(armed.after, scenario.deviceId, amount, None);
    }
  }

  lemma ExecuteSettles(d: Data, c: Command, controlled: bool)
    requires Settled(d.engine) && Room(d)
    ensures Settled(Execute(d, c, controlled).after.engine)
  {
    PerformSettles(d, c.body, controlled);
    hide Settled;
    hide Perform;
  }

  /** The command is carried out, not answered from memory nor refused. */
  ghost predicate Applied(d: Data, c: Command, controlled: bool)
    requires Settled(d.engine) && Room(d)
  {
    c.id !in d.commands && Execute(d, c, controlled).reply.Done?
  }

  /** What a command's first execution says once the lock is released: the generation to the
      listener's reset watch, and the transport wanted. */
  datatype Announcement = Announcement(generation: Option<nat>, online: Option<bool>)

  function Announced(body: Body, generation: nat): Announcement {
    match body
    case ResetAll => Announcement(Some(generation), Some(true))
    case SetTransport(online) => Announcement(None, online)
    case _ => Announcement(None, None)
  }

  lemma ClockAfter(s: Snapshot, ms: nat)
    requires AllSteppable(s.operations)
    ensures var a := M.Advance(s, ms); a.fault.None? ==> a.after.nowMs == s.nowMs + ms
  {
    hide AdvanceTo;
  }

  // ---------------------------------------------------------------- the server object

  class ControlServer {
    var engine: Object.Engine
    var scenarios: map<string, Scenario>
    var commands: map<string, Entry>
    const controlled: bool

    ghost function View(): Data
      reads this, engine
    {
      Data(engine.State(), scenarios, commands)
    }

    ghost predicate Valid()
      reads this, engine
    {
      engine.Valid()
    }

    constructor (epoch: nat, controlled: bool)
      ensures Valid() && fresh(engine) && View() == Data(Fresh(Some(epoch), 1, 1), map[], map[])
      ensures this.controlled == controlled
    {
      engine := new Object.Engine();
      scenarios, commands := map[], map[];
      this.controlled := controlled;
      new;
      hide Settled;
      engine.WithEpoch(epoch);
    }

    /** Whether every operation is terminal: a walk over the operations. */
    method AllDone() returns (idle: bool)
      ensures idle == Idle(engine.operations)
    {
      var rest := engine.operations.Keys;
      while rest != {}
        invariant rest <= engine.operations.Keys
        invariant forall id :: id in engine.operations.Keys - rest ==> engine.operations[id].stage.Terminal()
      {
        var id :| id in rest;
        if !engine.operations[id].stage.Terminal() {
          return false;
        }
        rest := rest - {id};
      }
      idle := true;
    }

    method Confirm(expected: seq<Expectation>) returns (met: bool)
      ensures met == Met(engine.counters, expected)
    {
      var i := 0;
      while i < |expected|
        invariant i <= |expected|
        invariant forall k :: 0 <= k < i ==> expected[k].expected == Some(CounterOf(engine.counters, expected[k].counter))
      {
        if expected[i].expected != Some(CounterOf(engine.counters, expected[i].counter)) {
          return false;
        }
        i := i + 1;
      }
      met := true;
    }

    /** Arm and start on a copy; the copy replaces the engine only when both succeed. */
    method StartStandalone(scenario: Scenario, amount: nat) returns (value: Option<Value>)
      requires Valid() && Room(View())
      modifies this`engine
      ensures Valid() && (engine == old(engine) || fresh(engine))
      ensures Performed(View(), value) == PerformStandalone(old(View()), scenario, amount)
    {
      ghost var d := View();
      hide Settled;
      hide M.Start;
      var position := engine.Position(scenario.deviceId);
      if position.Some? { return None; }
      var next := new Object.Engine.Clone(engine);
      var fault := next.Arm(scenario);
      if fault.Some? { return None; }
      assert M.Arm(d.engine, scenario) == Answer(next.State(), None);
      var id;
      fault, id := next.Start(scenario.deviceId, amount, None);
      if fault.Some? { return None; }
      engine := next;
      value := Some(Purchased(id));
    }

    method ArmScenario(scenario: Scenario) returns (value: Option<Value>)
      requires Valid()
      modifies engine
      ensures Valid() && Performed(View(), value) == PerformArm(old(View()), scenario)
    {
      hide Settled;
      var fault := engine.Arm(scenario);
      value := if fault.None? then Some(Queued(|engine.queue|)) else None;
    }

    /** The assertions in the order they are checked; nothing changes. */
    method Check(queueEmpty: bool, idle: bool, expected: seq<Expectation>) returns (value: Option<Value>)
      ensures value == if (queueEmpty && engine.queue != []) || (idle && !Idle(engine.operations)) || !Met(engine.counters, expected)
                       then None else Some(Passed(engine.counters))
    {
      if queueEmpty && engine.queue != [] { return None; }
      var done := AllDone();
      if idle && !done { return None; }
      var met := Confirm(expected);
      value := if met then Some(Passed(engine.counters)) else None;
    }

    method Configure(device: Device) returns (value: Option<Value>)
      requires Valid()
      modifies engine
      ensures Valid() && Performed(View(), value) == Lift(old(View()), M.SetDevice(old(View()).engine, device), Configured)
    {
      hide Settled;
      hide M.SetDevice;
      var fault := engine.SetDevice(device);
      value := if fault.None? then Some(Configured) else None;
    }

    method StartPayment(device: string, amount: nat, merchant: Option<string>) returns (value: Option<Value>)
      requires Valid() && Room(View())
      modifies engine
      ensures Valid() && AllSteppable(old(View()).engine.operations)
      ensures Performed(View(), value)
           == Lift(old(View()), M.Start(old(View()).engine, device, amount, merchant), Purchased(NextId(old(View()).engine)))
    {
      SettledIsSteppable(engine.State());
      hide Settled;
      hide M.Start;
      hide AllSteppable;
      var fault, id := engine.Start(device, amount, merchant);
      value := if fault.None? then Some(Purchased(id)) else None;
    }

    method TakeInput(id: string, input: Input) returns (value: Option<Value>)
      requires Valid()
      modifies engine
      ensures Valid() && Actionable(old(View()).engine.operations)
      ensures Performed(View(), value) == Lift(old(View()), M.Act(old(View()).engine, id, input), InputTaken(id))
    {
      SettledIsSteppable(engine.State());
      hide Settled;
      hide M.Act;
      hide Actionable;
      var fault := engine.Act(id, input);
      value := if fault.None? then Some(InputTaken(id)) else None;
    }

    method MoveClock(ms: nat) returns (value: Option<Value>)
      requires Valid()
      modifies engine
      ensures Valid() && AllSteppable(old(View()).engine.operations)
      ensures Performed(View(), value)
           == Lift(old(View()), M.Advance(old(View()).engine, ms), Clock(old(View()).engine.nowMs + ms))
    {
      SettledIsSteppable(engine.State());
      ClockAfter(engine.State(), ms);
      hide Settled;
      hide M.Advance;
      hide AllSteppable;
      var fault := engine.Tick(ms);
      value := if fault.None? then Some(Clock(engine.nowMs)) else None;
    }

    /** A new generation: no operations, saved scenarios or remembered commands. */
    method Forget() returns (value: Option<Value>)
      requires Valid()
      modifies this`scenarios, this`commands, engine
      ensures Valid()
      ensures Performed(View(), value)
           == Performed(Data(M.Reset(old(View()).engine), map[], map[]), Some(NewGeneration(old(View()).engine.generation + 1)))
    {
      engine.Reset();
      hide Settled;
      scenarios, commands := map[], map[];
      value := Some(NewGeneration(engine.generation));
    }

    /** The commands that start a payment. */
    method Pay(body: Body) returns (value: Option<Value>)
      requires Valid() && Room(View())
      requires body.Purchase? || body.Standalone?
      modifies this`engine, engine
      ensures Valid() && (engine == old(engine) || fresh(engine))
      ensures Performed(View(), value) == Perform(old(View()), body, controlled)
    {
      ghost var d := View();
      SettledIsSteppable(d.engine);
      hide Settled;
      hide M.Start;
      hide M.Act;
      hide M.Advance;
      hide NextId;
      hide PerformArm;
      hide PerformStandalone;
      hide M.SetDevice;
      hide M.Reset;
      hide Idle;
      hide Met;
      hide Lift;
      hide Room;
      hide Actionable;
      hide AllSteppable;
      value := None;
      match body {
        case Purchase(device, amount, merchant) =>
          if device.Some? && amount.Some? { value := StartPayment(device.value, amount.value, merchant); }
        case Standalone(scenario, amount) =>
          if scenario.Some? && amount.Some? { value := StartStandalone(scenario.value, amount.value); }
      }
    }

    /** A manual input. */
    method MoveOn(body: Body) returns (value: Option<Value>)
      requires Valid() && Room(View())
      requires body.ManualInput?
      modifies engine
      ensures Valid()
      ensures Performed(View(), value) == Perform(old(View()), body, controlled)
    {
      ghost var d := View();
      SettledIsSteppable(d.engine);
      hide Settled;
      hide M.Start;
      hide M.Act;
      hide M.Advance;
      hide NextId;
      hide PerformArm;
      hide PerformStandalone;
      hide M.SetDevice;
      hide M.Reset;
      hide Idle;
      hide Met;
      hide Lift;
      hide Room;
      hide Actionable;
      hide AllSteppable;
      value := None;
      if body.operationId.Some? && body.input.Some? { value := TakeInput(body.operationId.value, body.input.value); }
    }

    /** A move of the controlled clock, by an hour at most. */
    method Wait(body: Body) returns (value: Option<Value>)
      requires Valid() && Room(View())
      requires body.AdvanceClock?
      modifies engine
      ensures Valid()
      ensures Performed(View(), value) == Perform(old(View()), body, controlled)
    {
      ghost var d := View();
      SettledIsSteppable(d.engine);
      hide Settled;
      hide M.Start;
      hide M.Act;
      hide M.Advance;
      hide NextId;
      hide PerformArm;
      hide PerformStandalone;
      hide M.SetDevice;
      hide M.Reset;
      hide Idle;
      hide Met;
      hide Lift;
      hide Room;
      hide Actionable;
      hide AllSteppable;
      value := None;
      if controlled && body.ms.Some? && body.ms.value <= HOUR_MS { value := MoveClock(body.ms.value); }
    }

    /** The commands about payments and the clock. */
    method Operate(body: Body) returns (value: Option<Value>)
      requires Valid() && Room(View())
      requires body.Purchase? || body.Standalone? || body.ManualInput? || body.AdvanceClock?
      modifies this`engine, engine
      ensures Valid() && (engine == old(engine) || fresh(engine))
      ensures Performed(View(), value) == Perform(old(View()), body, controlled)
    {
      hide Settled;
      hide Room;
      hide Perform;
      if body.Purchase? || body.Standalone? {
        value := Pay(body);
      } else if body.ManualInput? {
        value := MoveOn(body);
      } else {
        value := Wait(body);
      }
    }

    /** The command's own work, under the lock. */
    method Work(body: Body) returns (value: Option<Value>)
      requires Valid() && Room(View())
      modifies this`engine, this`scenarios, this`commands, engine
      ensures Valid() && (engine == old(engine) || fresh(engine))
      ensures Performed(View(), value) == Perform(old(View()), body, controlled)
    {
      hide Settled;
      hide Room;
      if body.Purchase? || body.Standalone? || body.ManualInput? || body.AdvanceClock? {
        hide Perform;
        value := Operate(body);
        return;
      }
      hide M.Start;
      hide M.Act;
      hide M.Advance;
      hide M.SetDevice;
      hide M.Reset;
      hide PerformArm;
      hide PerformStandalone;
      hide Lift;
      hide Idle;
      hide Met;
      value := None;
      match body {
        case SaveScenario(scenario) =>
          if scenario.Some? && scenario.value.Valid() {
            scenarios := scenarios[scenario.value.id := scenario.value];
            value := Some(Saved(scenario.value.id));
          }
        case ArmInline(scenario) =>
          if scenario.Some? { value := ArmScenario(scenario.value); }
        case ArmSaved(id) =>
          if id in scenarios { value := ArmScenario(scenarios[id]); }
        case ConfigureDevice(device) =>
          if device.Some? { value := Configure(device.value); }
        case SetTransport(online) =>
          if online.Some? { value := Some(RequestedOnline(online.value)); }
        case ResetAll =>
          value := Forget();
        case Assertion(queueEmpty, idle, expected) =>
          value := Check(queueEmpty, idle, expected);
        case UnknownCommand =>
      }
    }

    /** One control command from receipt to reply, and what it announces after releasing the lock. */
    method Command(c: Command) returns (reply: Reply, announcement: Announcement)
      requires Valid() && Room(View())
      modifies this`engine, this`scenarios, this`commands, engine
      ensures Valid() && (engine == old(engine) || fresh(engine))
      ensures Executed(View(), reply) == Execute(old(View()), c, controlled)
      ensures announcement == if Applied(old(View()), c, controlled) then Announced(c.body, engine.generation) else Announcement(None, None)
    {
      hide Settled;
      hide Perform;
      announcement := Announcement(None, None);
      if !GoodId(c.id) { return BadCommandId, announcement; }
      if c.id in commands {
        reply := if commands[c.id].signature == c.signature then Done(commands[c.id].value) else CommandConflict;
        return;
      }
      if c.signature.generation.Some? && c.signature.generation.value != engine.generation {
        return StaleGeneration, announcement;
      }
      var value := Work(c.body);
      if value.None? { return CommandRejected, announcement; }
      commands := commands[c.id := Entry(c.signature, value.value)];
      reply, announcement := Done(value.value), Announced(c.body, engine.generation);
    }
  }
}
