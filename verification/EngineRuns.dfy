/** Whole runs of the engine: any sequence of public calls from a fresh engine, including resets. */
module EngineRuns {
  import opened Prelude
  import opened EngineModel
  import opened EngineJournal
  import opened EngineInvariants

  datatype Call =
    | ArmCall(scenario: Scenario)
    | SetDeviceCall(device: Device)
    | StartCall(deviceId: string, amount: nat, merchant: Option<string>)
    | AdvanceCall(deltaMs: nat)
    | ActCall(id: string, input: Input)
    | DeliverCall(id: string)
    | ResetCall

  /** A start adds the scenario's timeout to the clock without an overflow check. */
  predicate Possible(s: Snapshot, c: Call) { c.StartCall? ==> ClockRoom(s) }

  ghost function Apply(s: Snapshot, c: Call): Answer
    requires Settled(s)
  {
    SoundIsSteppable(s);
    match c
    case ArmCall(scenario) => Arm(s, scenario)
    case SetDeviceCall(device) => SetDevice(s, device)
    case StartCall(device, amount, merchant) => Start(s, device, amount, merchant)
    case AdvanceCall(delta) => Advance(s, delta)
    case ActCall(id, input) => Act(s, id, input)
    case DeliverCall(id) => Deliver(s, id)
    case ResetCall => Answer(Reset(s), None)
  }

  // ---------------------------------------------------------------- every call keeps the invariant

  /** A remark about a changed queue or changed devices. */
  lemma RemarkSettles(s: Snapshot, t: Snapshot, kind: EventKind)
    requires Settled(s) && t == s.(devices := t.devices, queue := t.queue) && QueueUsable(t.queue)
    requires kind.ScenarioArmed? || kind.DeviceConfigured?
    ensures Settled(Log(t, None, kind))
  {
    RemarkIsRead(t, None, kind);
    hide Complete;
    RemarkKeeps(s, Log(t, None, kind));
  }

  lemma ArmSettles(s: Snapshot, scenario: Scenario)
    requires Settled(s)
    ensures Settled(Arm(s, scenario).after)
  {
    if Arm(s, scenario).fault.None? {
      var queued := s.(queue := s.queue + [scenario]);
      assert QueueUsable(queued.queue);
      assert Arm(s, scenario).after == Log(queued, None, ScenarioArmed(scenario.id));
      hide Settled;
      hide Arm;
      RemarkSettles(s, queued, ScenarioArmed(scenario.id));
    }
  }

  lemma SetDeviceSettles(s: Snapshot, device: Device)
    requires Settled(s)
    ensures Settled(SetDevice(s, device).after)
  {
    SetDeviceMeans(s, device);
    assert QueueUsable(s.queue) by { hide SetDevice; }
    hide Settled;
    hide SetDevice;
    if SetDevice(s, device).fault.None? {
      RemarkSettles(s, s.(devices := s.devices[device.id := device]), DeviceConfigured(device.id));
    }
    hide QueueUsable;
  }

  lemma SetDeviceMeans(s: Snapshot, device: Device)
    ensures var a := SetDevice(s, device);
      a.after == if a.fault.None? then Log(s.(devices := s.devices[device.id := device]), None, DeviceConfigured(device.id)) else s
  {
    hide Busy;
  }

  lemma RequestKeeps(s: Snapshot, device: string, amount: nat)
    requires Settled(s)
    ensures Settled(Requested(s, device, amount))
    ensures Requested(s, device, amount).counters.accepted < Requested(s, device, amount).counters.requests
  {
    RequestIsRead(s, device, amount);
    RemarkKeeps(s, Requested(s, device, amount));
  }

  lemma FaultKeeps(s: Snapshot, index: nat)
    requires Settled(s) && index < |s.queue|
    ensures s.queue[index].uses > 0
    ensures Settled(Log(s.(queue := Spend(s.queue, index)), None, TransportFault))
  {
    SpendUsable(s.queue, index);
    assert s.queue[index].Valid();
    var spent := s.(queue := Spend(s.queue, index));
    RemarkIsRead(spent, None, TransportFault);
    RemarkKeeps(s, Log(spent, None, TransportFault));
  }

  /** The ways a purchase ends, told from the state in which the request has been counted. */
  lemma StartMeans(s: Snapshot, device: string, amount: nat, merchant: Option<string>)
    requires AllSteppable(s.operations) && QueueUsable(s.queue) && s.nowMs <= U64_MAX
    ensures var r := Requested(s, device, amount); var refusal := Refusal(r, device, amount, merchant);
      && AllSteppable(r.operations) && QueueUsable(r.queue) && NextId(r) == NextId(s) && r.nowMs == s.nowMs
      && (refusal.Some? ==> Start(s, device, amount, merchant) == Answer(r, refusal))
      && (refusal.None? ==>
            var index := FirstFor(r.queue, device).value;
            && r.queue[index].Valid()
            && (r.queue[index].delivery.DisconnectBeforeAccept? ==>
                  Start(s, device, amount, merchant)
                  == Answer(Log(r.(queue := Spend(r.queue, index)), None, TransportFault), Some(DisconnectedBeforeAccept)))
            && (!r.queue[index].delivery.DisconnectBeforeAccept? ==>
                  && AllSteppable(Accepted(r, device, amount).operations) && Accepted(r, device, amount).nowMs == r.nowMs
                  && Start(s, device, amount, merchant) == Answer(AdvanceTo(Accepted(r, device, amount), r.nowMs), None)))
  {
    hide AdvanceTo;
  }

  lemma StartSettles(s: Snapshot, device: string, amount: nat, merchant: Option<string>)
    requires Settled(s) && ClockRoom(s)
    ensures AllSteppable(s.operations) && Settled(Start(s, device, amount, merchant).after)
  {
    SoundIsSteppable(s);
    RequestKeeps(s, device, amount);
    StartMeans(s, device, amount, merchant);
    hide Start;
    var r := Requested(s, device, amount);
    hide Requested;
    if Refusal(r, device, amount, merchant).None? {
      hide Refusal;
      var index := FirstFor(r.queue, device).value;
      if r.queue[index].delivery.DisconnectBeforeAccept? {
        FaultKeeps(r, index);
        hide Settled;
      } else {
        AcceptSettles(r, device, amount);
        hide Settled;
      }
    } else {
      hide Settled;
    }
  }

  lemma AcceptSettles(r: Snapshot, device: string, amount: nat)
    requires Invariant(r) && ClockRoom(r) && r.counters.accepted < r.counters.requests
    requires device in r.devices && !Busy(r.operations, device) && FirstFor(r.queue, device).Some?
    ensures AllSteppable(Accepted(r, device, amount).operations) && Settled(AdvanceTo(Accepted(r, device, amount), r.nowMs))
  {
    AcceptKeeps(r, device, amount);
    assert Accepted(r, device, amount).nowMs == r.nowMs && r.nowMs <= U64_MAX by { hide Invariant; }
    hide Invariant;
    hide Accepted;
    AdvanceKeeps(Accepted(r, device, amount), r.nowMs);
    hide Settled;
  }

  /** The three ways a manual input ends. */
  lemma ActMeans(s: Snapshot, id: string, input: Input)
    requires Settled(s)
    ensures Actionable(s.operations) && s.nowMs <= U64_MAX
    ensures id !in s.operations ==> Act(s, id, input) == Answer(s, Some(OperationNotFound))
    ensures id in s.operations && Permitted(s.operations[id], input).None? ==> Act(s, id, input) == Answer(s, Some(InvalidTransition))
    ensures id in s.operations && Permitted(s.operations[id], input).Some? ==>
      && AllSteppable(Acted(s, id, input).operations) && Acted(s, id, input).nowMs == s.nowMs
      && Act(s, id, input) == Answer(AdvanceTo(Acted(s, id, input), s.nowMs), None)
  {
    SettledIsSteppable(s);
    assert s.nowMs <= U64_MAX;
    hide AdvanceTo;
    hide Settled;
    hide Permitted;
    if id in s.operations && Permitted(s.operations[id], input).Some? {
      ActedIsATransition(s, id, input);
      hide Acted;
    }
  }

  lemma ActSettles(s: Snapshot, id: string, input: Input)
    requires Settled(s)
    ensures Actionable(s.operations) && Settled(Act(s, id, input).after)
  {
    ActMeans(s, id, input);
    if id in s.operations && Permitted(s.operations[id], input).Some? {
      ActKeeps(s, id, input);
      hide Settled;
      hide Act;
      hide Permitted;
      hide Acted;
      hide AdvanceTo;
      hide Invariant;
      hide Actionable;
      AdvanceKeeps(Acted(s, id, input), s.nowMs);
    } else {
      hide Settled;
      hide Act;
      hide Permitted;
    }
  }

  lemma SettledIsSteppable(s: Snapshot)
    requires Settled(s)
    ensures Actionable(s.operations)
  {
    SoundIsSteppable(s);
  }

  lemma AdvanceSettles(s: Snapshot, delta: nat)
    requires Settled(s) && AllSteppable(s.operations)
    ensures Settled(Advance(s, delta).after)
  {
    hide AdvanceTo;
    hide AllSteppable;
    hide Invariant;
    if s.nowMs + delta <= U64_MAX {
      AdvanceKeeps(s, s.nowMs + delta);
      hide Settled;
    }
  }

  lemma ApplySettles(s: Snapshot, c: Call)
    requires Settled(s) && Possible(s, c)
    ensures Settled(Apply(s, c).after)
  {
    hide Settled;
    hide Start;
    hide Act;
    hide Advance;
    match c
    case ArmCall(scenario) => ArmSettles(s, scenario);
    case SetDeviceCall(device) => SetDeviceSettles(s, device);
    case StartCall(device, amount, merchant) => StartSettles(s, device, amount, merchant);
    case AdvanceCall(delta) => SettledIsSteppable(s); AdvanceSettles(s, delta);
    case ActCall(id, input) => ActSettles(s, id, input);
    case DeliverCall(id) => DeliverSettles(s, id);
    case ResetCall => ResetSettles(s);
  }

  lemma DeliverSettles(s: Snapshot, id: string)
    requires Settled(s)
    ensures Settled(Deliver(s, id).after)
  {
    DeliverKeeps(s, id);
    hide Invariant;
  }

  /** The clock has room for every start of the run. */
  ghost predicate Legal(s: Snapshot, calls: seq<Call>)
    requires Settled(s)
    decreases |calls|
  {
    calls == [] || (Possible(s, calls[0]) && (ApplySettles(s, calls[0]); Legal(Apply(s, calls[0]).after, calls[1..])))
  }

  ghost function Run(s: Snapshot, calls: seq<Call>): (end: Snapshot)
    requires Settled(s) && Legal(s, calls)
    ensures Settled(end)
    decreases |calls|
  {
    if calls == [] then s
    else
      ApplySettles(s, calls[0]);
      Run(Apply(s, calls[0]).after, calls[1..])
  }

  /** A new engine, as constructed with or without a calendar epoch. */
  lemma FreshSettles(epoch: Option<nat>)
    ensures Settled(Fresh(epoch, 1, 1))
  {
    var f := Fresh(epoch, 1, 1);
    assert Paid(f.operations) == {} && Returned(f.operations) == {} && Answered(f.operations) == {};
    assert Briefs(f.operations) == map[];
  }

  /** Money is conserved over every run. */
  lemma MoneyConserved(epoch: Option<nat>, calls: seq<Call>)
    requires Settled(Fresh(epoch, 1, 1)) && Legal(Fresh(epoch, 1, 1), calls)
    ensures var s := Run(Fresh(epoch, 1, 1), calls);
      && (forall id :: id in s.operations ==> (s.operations[id].charged <==> s.operations[id].stage.Approved?))
      && s.counters.approvals == |set id | id in s.operations && (s.operations[id].stage.Approved? || s.operations[id].stage.Reversed?)|
      && s.counters.reversals == |set id | id in s.operations && s.operations[id].stage.Reversed?|
      && s.counters.delivered == |set id | id in s.operations && s.operations[id].responseDelivered|
      && (forall id :: id in s.operations && s.operations[id].responseDelivered ==> s.operations[id].stage.Terminal())
      && s.counters.delivered <= s.counters.accepted == |s.operations| <= s.counters.requests
      && s.counters.reversals <= s.counters.approvals <= s.counters.accepted
  {
    var s := Run(Fresh(epoch, 1, 1), calls);
    assert Settled(s);
    assert Paid(s.operations) == set id | id in s.operations && (s.operations[id].stage.Approved? || s.operations[id].stage.Reversed?);
    assert Returned(s.operations) == set id | id in s.operations && s.operations[id].stage.Reversed?;
    assert Answered(s.operations) == set id | id in s.operations && s.operations[id].responseDelivered;
    forall id | id in s.operations ensures Sound(s.operations[id]) {
      assert InPlace(id, s.operations[id], s.nowMs);
    }
    SubsetCount(Answered(s.operations), s.operations.Keys);
    SubsetCount(Returned(s.operations), Paid(s.operations));
    SubsetCount(Paid(s.operations), s.operations.Keys);
  }

  lemma {:induction false} SubsetCount(a: set<string>, b: set<string>)
    requires a <= b
    ensures |a| <= |b|
  {
    if a != {} {
      var x :| x in a;
      SubsetCount(a - {x}, b - {x});
    }
  }

  /** An Error scenario, or a Declined one the bank does not decide by hand, never charges. */
  lemma FailuresNeverCharge(epoch: Option<nat>, calls: seq<Call>, id: string)
    requires Settled(Fresh(epoch, 1, 1)) && Legal(Fresh(epoch, 1, 1), calls)
    requires id in Run(Fresh(epoch, 1, 1), calls).operations
    ensures var op := Run(Fresh(epoch, 1, 1), calls).operations[id];
      op.scenario.outcome.Error? || (op.scenario.outcome.Decline? && !op.scenario.manualBank)
      ==> !op.charged && !op.stage.Approved? && !op.stage.Reversed?
  {
    var s := Run(Fresh(epoch, 1, 1), calls);
    assert InPlace(id, s.operations[id], s.nowMs);
  }

  /** Between calls every deadline and due time lies ahead, completions respect the deadline, nothing
      is charged at it, and a device has one active payment. */
  lemma DeadlinesRespected(epoch: Option<nat>, calls: seq<Call>)
    requires Settled(Fresh(epoch, 1, 1)) && Legal(Fresh(epoch, 1, 1), calls)
    ensures var s := Run(Fresh(epoch, 1, 1), calls);
      && (forall id :: id in s.operations ==>
            var op := s.operations[id];
            && (!op.stage.Terminal() ==> s.nowMs < Due(op).value && s.nowMs < op.deadlineMs)
            && (op.stage.Terminal() && !op.stage.Reversed? ==> op.completedMs.value <= op.deadlineMs)
            && (op.charged ==> op.completedMs.value < op.deadlineMs))
      && (forall a, b :: a in s.operations && b in s.operations && Competing(s.operations[a], s.operations[b]) ==> a == b)
  {
    var s := Run(Fresh(epoch, 1, 1), calls);
    hide Run;
    hide Legal;
    hide InPlace;
    hide Due;
    hide Identified;
    hide Money;
    hide QueueUsable;
    hide Complete;
    forall id | id in s.operations
      ensures var op := s.operations[id];
        && (!op.stage.Terminal() ==> s.nowMs < Due(op).value && s.nowMs < op.deadlineMs)
        && (op.stage.Terminal() && !op.stage.Reversed? ==> op.completedMs.value <= op.deadlineMs)
        && (op.charged ==> op.completedMs.value < op.deadlineMs)
    {
      DeadlineOf(id, s.operations[id], s.nowMs);
    }
  }

  /** The same for one operation that is in place and not due. */
  lemma DeadlineOf(id: string, op: Operation, now: nat)
    requires InPlace(id, op, now) && (Due(op).Some? ==> now < Due(op).value)
    ensures !op.stage.Terminal() ==> Due(op).Some? && now < Due(op).value && now < op.deadlineMs
    ensures op.stage.Terminal() && !op.stage.Reversed? ==> op.completedMs.Some? && op.completedMs.value <= op.deadlineMs
    ensures op.charged ==> op.completedMs.Some? && op.completedMs.value < op.deadlineMs
  {
  }

  /** Folding the journal of any run gives each operation's stage and charge, and every counter. */
  lemma JournalTellsAll(epoch: Option<nat>, calls: seq<Call>)
    requires Settled(Fresh(epoch, 1, 1)) && Legal(Fresh(epoch, 1, 1), calls)
    ensures var s := Run(Fresh(epoch, 1, 1), calls); var view := Replay(s.events);
      && view.counters == s.counters && view.briefs.Keys == s.operations.Keys
      && forall id :: id in s.operations ==> view.briefs[id] == BriefOf(s.operations[id])
  {
  }

  // ---------------------------------------------------------------- refused calls

  /** A refused call leaves the engine exactly as it was, except that a refused start still counts and
      logs the request, and a disconnect before acceptance also spends a scenario use. */
  lemma RefusalsAreHarmless(s: Snapshot, c: Call)
    requires Settled(s) && Possible(s, c) && Apply(s, c).fault.Some?
    ensures !c.StartCall? ==> Apply(s, c).after == s
    ensures c.StartCall? ==> Apply(s, c).after != s
    ensures c.StartCall? && !Apply(s, c).fault.value.DisconnectedBeforeAccept?
            ==> Apply(s, c).after == Requested(s, c.deviceId, c.amount)
    ensures c.StartCall? && Apply(s, c).fault.value.DisconnectedBeforeAccept?
            ==> Apply(s, c).after.operations == s.operations
                && Apply(s, c).after.counters == s.counters.(requests := s.counters.requests + 1)
  {
    SoundIsSteppable(s);
    hide AdvanceTo;
    if c.StartCall? {
      StartMeans(s, c.deviceId, c.amount, c.merchant);
      hide Start;
      hide Settled;
      hide Refusal;
      assert Apply(s, c).after.counters.requests == s.counters.requests + 1;
    } else {
      hide Start;
      hide Settled;
    }
  }

  // ---------------------------------------------------------------- the journal over whole runs

  /** The journal entries a call adds; a reset starts a new journal. */
  ghost function Emitted(s: Snapshot, c: Call): seq<Event>
    requires Settled(s)
  {
    var t := Apply(s, c).after;
    if c.ResetCall? || |t.events| < |s.events| then t.events else t.events[|s.events|..]
  }

  /** Every entry ever written, across resets. */
  ghost function History(s: Snapshot, calls: seq<Call>): seq<Event>
    requires Settled(s) && Legal(s, calls)
    decreases |calls|
  {
    if calls == [] then []
    else
      ApplySettles(s, calls[0]);
      Emitted(s, calls[0]) + History(Apply(s, calls[0]).after, calls[1..])
  }

  lemma StartGrows(s: Snapshot, device: string, amount: nat, merchant: Option<string>)
    requires Settled(s) && ClockRoom(s)
    ensures AllSteppable(s.operations) && Grows(s, Start(s, device, amount, merchant).after)
  {
    SettledIsSteppable(s);
    RequestKeeps(s, device, amount);
    StartMeans(s, device, amount, merchant);
    hide Start;
    var r := Requested(s, device, amount);
    LogGrows(s, s.(counters := r.counters), None, PaymentRequest(device, amount));
    hide Requested;
    hide Grows;
    if Refusal(r, device, amount, merchant).None? {
      hide Refusal;
      var index := FirstFor(r.queue, device).value;
      if r.queue[index].delivery.DisconnectBeforeAccept? {
        FaultKeeps(r, index);
        hide Settled;
        LogGrows(r, r.(queue := Spend(r.queue, index)), None, TransportFault);
        GrowsTransitive(s, r, Start(s, device, amount, merchant).after);
      } else {
        AcceptanceGrows(r, device, amount);
        hide Settled;
        GrowsTransitive(s, r, AdvanceTo(Accepted(r, device, amount), r.nowMs));
      }
    } else {
      hide Settled;
    }
  }

  /** An acceptance and its first clock turn. */
  lemma AcceptanceGrows(r: Snapshot, device: string, amount: nat)
    requires Invariant(r) && ClockRoom(r) && r.counters.accepted < r.counters.requests
    requires device in r.devices && !Busy(r.operations, device) && FirstFor(r.queue, device).Some?
    ensures AllSteppable(Accepted(r, device, amount).operations) && Grows(r, AdvanceTo(Accepted(r, device, amount), r.nowMs))
  {
    var a := Accepted(r, device, amount);
    AcceptKeeps(r, device, amount);
    AcceptedGrows(r, device, amount);
    assert a.nowMs == r.nowMs by { hide Invariant; hide Grows; }
    hide Accepted;
    hide Grows;
    hide AdvanceTo;
    SoundIsSteppable(a);
    hide Invariant;
    AdvanceToGrows(a, r.nowMs);
    GrowsTransitive(r, a, AdvanceTo(a, r.nowMs));
  }

  lemma AcceptedGrows(s: Snapshot, device: string, amount: nat)
    requires device in s.devices && FirstFor(s.queue, device).Some? && QueueUsable(s.queue)
    ensures Grows(s, Accepted(s, device, amount))
  {
    hide Spend;
    hide QueueUsable;
  }

  lemma ActedGrows(s: Snapshot, id: string, input: Input)
    requires id in s.operations && Permitted(s.operations[id], input).Some?
    requires Steppable(s.operations[id]) && FailureStageActive(s.operations[id])
    ensures Grows(s, Acted(s, id, input))
  {
    ActedIsATransition(s, id, input);
    var plugged := s.(devices := Acted(s, id, input).devices);
    LogGrows(s, plugged, Some(id), InputReceived(input));
    var logged := Log(plugged, Some(id), InputReceived(input));
    var move := InputMove(s.operations[id], input, s.nowMs);
    TransitionGrows(logged, id, move);
    GrowsTransitive(s, logged, Acted(s, id, input));
  }

  lemma TransitionGrows(s: Snapshot, id: string, move: Move)
    requires id in s.operations
    ensures Grows(s, Transition(s, id, move.stage, move.error))
  {
  }

  lemma ActGrows(s: Snapshot, id: string, input: Input)
    requires Settled(s)
    ensures Actionable(s.operations) && Grows(s, Act(s, id, input).after)
  {
    SettledIsSteppable(s);
    ActMeans(s, id, input);
    hide Settled;
    hide Act;
    hide Permitted;
    hide AdvanceTo;
    if id in s.operations && Permitted(s.operations[id], input).Some? {
      hide Grows;
      hide Acted;
      ActedGrows(s, id, input);
      AdvanceToGrows(Acted(s, id, input), s.nowMs);
      GrowsTransitive(s, Acted(s, id, input), AdvanceTo(Acted(s, id, input), s.nowMs));
    }
  }

  lemma AdvanceGrows(s: Snapshot, delta: nat)
    requires AllSteppable(s.operations)
    ensures Grows(s, Advance(s, delta).after)
  {
    hide AdvanceTo;
    hide AllSteppable;
    if s.nowMs + delta <= U64_MAX {
      AdvanceToGrows(s, s.nowMs + delta);
      hide Grows;
    }
  }

  lemma CallGrows(s: Snapshot, c: Call)
    requires Settled(s) && Possible(s, c) && !c.ResetCall?
    ensures Grows(s, Apply(s, c).after)
  {
    hide Settled;
    hide Start;
    hide Act;
    hide Advance;
    match c
    case StartCall(device, amount, merchant) => StartGrows(s, device, amount, merchant);
    case AdvanceCall(delta) => SettledIsSteppable(s); AdvanceGrows(s, delta);
    case ActCall(id, input) => ActGrows(s, id, input);
    case ArmCall(_) =>
    case SetDeviceCall(_) =>
    case DeliverCall(_) =>
  }

  /** Calendar times in order; an engine without an epoch gives none. */
  predicate NotBefore(a: Option<nat>, b: Option<nat>) {
    (a.Some? <==> b.Some?) && (a.Some? ==> a.value <= b.value)
  }

  /** Entries follow one another: cursors by one, calendar never back. */
  ghost predicate InOrder(events: seq<Event>, next: nat, start: Option<nat>) {
    && (forall i :: 0 <= i < |events| ==> events[i].cursor == next + i)
    && (forall i :: 0 <= i < |events| ==> NotBefore(start, events[i].unixMs))
    && (forall i, j :: 0 <= i < j < |events| ==> NotBefore(events[i].unixMs, events[j].unixMs))
  }

  lemma GrowthInOrder(s: Snapshot, t: Snapshot)
    requires Grows(s, t)
    ensures var added := t.events[|s.events|..];
      && t.nextEvent == s.nextEvent + |added| && InOrder(added, s.nextEvent, Stamp(s))
      && NotBefore(Stamp(s), Stamp(t))
      && forall i :: 0 <= i < |added| ==> NotBefore(added[i].unixMs, Stamp(t))
  {
  }

  lemma EmittedInOrder(s: Snapshot, c: Call)
    requires Settled(s) && Possible(s, c)
    ensures var t := Apply(s, c).after;
      && t.nextEvent == s.nextEvent + |Emitted(s, c)|
      && InOrder(Emitted(s, c), s.nextEvent, Stamp(s)) && NotBefore(Stamp(s), Stamp(t))
      && forall i :: 0 <= i < |Emitted(s, c)| ==> NotBefore(Emitted(s, c)[i].unixMs, Stamp(t))
  {
    hide Settled;
    if !c.ResetCall? {
      CallGrows(s, c);
      hide Apply;
      GrowthInOrder(s, Apply(s, c).after);
    }
  }

  lemma InOrderTogether(
    a: seq<Event>, b: seq<Event>, next: nat, start: Option<nat>, middle: Option<nat>)
    requires InOrder(a, next, start) && InOrder(b, next + |a|, middle) && NotBefore(start, middle)
    requires forall i :: 0 <= i < |a| ==> NotBefore(a[i].unixMs, middle)
    ensures InOrder(a + b, next, start)
  {
    forall i | 0 <= i < |a + b| ensures NotBefore(start, (a + b)[i].unixMs) {
      if i >= |a| { assert NotBefore(middle, b[i - |a|].unixMs); }
    }
    forall i, j | 0 <= i < j < |a + b| ensures NotBefore((a + b)[i].unixMs, (a + b)[j].unixMs) {
      if i < |a| <= j { assert NotBefore(a[i].unixMs, middle) && NotBefore(middle, b[j - |a|].unixMs); }
    }
  }

  /** Over a whole run, resets included, cursors rise by exactly one and the calendar, where there is one,
      never runs backwards, although every reset sets the clock to zero. */
  lemma {:induction false} HistoryInOrder(s: Snapshot, calls: seq<Call>)
    requires Settled(s) && Legal(s, calls)
    ensures InOrder(History(s, calls), s.nextEvent, Stamp(s))
    decreases |calls|
  {
    hide Settled;
    hide Apply;
    hide Stamp;
    hide Emitted;
    if calls != [] {
      var t := Apply(s, calls[0]).after;
      ApplySettles(s, calls[0]);
      EmittedInOrder(s, calls[0]);
      HistoryInOrder(t, calls[1..]);
      hide Legal;
      InOrderTogether(Emitted(s, calls[0]), History(t, calls[1..]), s.nextEvent, Stamp(s), Stamp(t));
      hide InOrder;
    }
  }
}
