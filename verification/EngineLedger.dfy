/** Conservation of scenario uses over whole runs, first in, first out per device. */
module EngineLedger {
  import opened Prelude
  import opened EngineModel
  import opened EngineClock
  import opened EngineJournal
  import opened EngineInvariants
  import opened EngineRuns

  // ---------------------------------------------------------------- scenario uses

  function UsesLeft(queue: seq<Scenario>): nat {
    if queue == [] then 0 else queue[0].uses + UsesLeft(queue[1..])
  }

  function Faults(events: seq<Event>): nat {
    if events == [] then 0
    else Faults(events[..|events| - 1]) + if events[|events| - 1].kind.TransportFault? then 1 else 0
  }

  lemma {:induction false} UsesAppend(queue: seq<Scenario>, more: seq<Scenario>)
    ensures UsesLeft(queue + more) == UsesLeft(queue) + UsesLeft(more)
  {
    if queue == [] {
      assert queue + more == more;
    } else {
      UsesAppend(queue[1..], more);
      assert (queue + more)[1..] == queue[1..] + more;
    }
  }

  lemma SpendBeyondHead(queue: seq<Scenario>, index: nat)
    requires 0 < index < |queue| && queue[index].uses > 0
    ensures Spend(queue, index) == [queue[0]] + Spend(queue[1..], index - 1)
  {
    var head, tail := [queue[0]], queue[1..];
    assert tail[index - 1] == queue[index];
    if queue[index].uses == 1 {
      assert queue[..index] == head + tail[..index - 1] && queue[index + 1..] == tail[index..];
      assert (head + tail[..index - 1]) + tail[index..] == head + (tail[..index - 1] + tail[index..]);
    } else {
      var left := queue[index].(uses := queue[index].uses - 1);
      assert queue[index := left] == head + tail[index - 1 := left];
    }
  }

  lemma {:induction false} SpendTakesOne(queue: seq<Scenario>, index: nat)
    requires index < |queue| && queue[index].uses > 0
    ensures UsesLeft(Spend(queue, index)) == UsesLeft(queue) - 1
  {
    if index > 0 {
      SpendBeyondHead(queue, index);
      SpendTakesOne(queue[1..], index - 1);
    } else if queue[0].uses == 1 {
      assert Spend(queue, 0) == queue[1..];
    } else {
      assert Spend(queue, 0)[1..] == queue[1..];
    }
  }

  /** One use taken from the device's first entry, if it has one. */
  function SpendFor(queue: seq<Scenario>, device: string): seq<Scenario> {
    var first := FirstFor(queue, device);
    if first.Some? && queue[first.value].uses > 0 then Spend(queue, first.value) else queue
  }

  lemma FaultsLog(s: Snapshot, id: Option<string>, kind: EventKind)
    ensures Faults(Log(s, id, kind).events) == Faults(s.events) + if kind.TransportFault? then 1 else 0
  {
    assert Log(s, id, kind).events[..|s.events|] == s.events;
  }

  lemma {:induction false} FaultsGrow(before: seq<Event>, after: seq<Event>)
    requires |before| <= |after| && after[..|before|] == before
    requires forall i :: |before| <= i < |after| ==> !after[i].kind.TransportFault?
    ensures Faults(after) == Faults(before)
    decreases |after|
  {
    if |after| == |before| {
      assert after == before;
    } else {
      assert after[..|after| - 1][..|before|] == before;
      FaultsGrow(before, after[..|after| - 1]);
    }
  }

  /** Uses still queued, operations accepted, and disconnects before acceptance. */
  function Balance(s: Snapshot): nat { UsesLeft(s.queue) + s.counters.accepted + Faults(s.events) }

  lemma AdvanceKeepsBalance(s: Snapshot, target: nat)
    requires Invariant(s) && s.nowMs <= target <= U64_MAX
    ensures AllSteppable(s.operations)
    ensures Balance(AdvanceTo(s, target)) == Balance(s) && AdvanceTo(s, target).queue == s.queue
    ensures AdvanceTo(s, target).generation == s.generation && AdvanceTo(s, target).nextOperation == s.nextOperation
  {
    SoundIsSteppable(s);
    DrainEnds(s, target);
    AdvanceRefinesIndependentRuns(s, target);
    AdvanceToGrows(s, target);
    FaultsGrow(s.events, AdvanceTo(s, target).events);
    hide Drain;
  }

  lemma AcceptBalance(s: Snapshot, device: string, amount: nat)
    requires device in s.devices && FirstFor(s.queue, device).Some? && QueueUsable(s.queue)
    ensures Balance(Accepted(s, device, amount)) == Balance(s)
    ensures Accepted(s, device, amount).queue == SpendFor(s.queue, device)
  {
    var index := FirstFor(s.queue, device).value;
    assert s.queue[index].Valid();
    SpendTakesOne(s.queue, index);
    var op := NewOperation(s, device, amount, s.queue[index]);
    FaultsLog(s.(operations := s.operations[op.id := op]), Some(op.id), Started);
    AcceptedFields(s, device, amount, index, op);
    assert Accepted(s, device, amount).events[..|s.events|] == s.events;
  }

  /** What an accepted purchase does to queue, ids and balance, its first clock turn included. */
  lemma AcceptedStart(r: Snapshot, device: string, amount: nat)
    requires Invariant(r) && ClockRoom(r) && r.counters.accepted < r.counters.requests
    requires device in r.devices && !Busy(r.operations, device) && FirstFor(r.queue, device).Some?
    ensures AllSteppable(Accepted(r, device, amount).operations)
    ensures var t := AdvanceTo(Accepted(r, device, amount), r.nowMs);
      && Balance(t) == Balance(r) && t.generation == r.generation && t.nextOperation == r.nextOperation + 1
      && t.queue == SpendFor(r.queue, device)
  {
    var index := FirstFor(r.queue, device).value;
    AcceptKeeps(r, device, amount);
    AcceptBalance(r, device, amount);
    AcceptedFields(r, device, amount, index, NewOperation(r, device, amount, r.queue[index]));
    hide Accepted;
    hide Balance;
    AdvanceKeepsBalance(Accepted(r, device, amount), r.nowMs);
    hide AdvanceTo;
    hide Invariant;
  }

  /** What a start does to queue, ids and balance: it takes one use from the device's earliest entry,
      or leaves the queue untouched. */
  lemma StartSpends(s: Snapshot, device: string, amount: nat, merchant: Option<string>)
    requires Settled(s) && ClockRoom(s)
    ensures AllSteppable(s.operations)
    ensures var a := Start(s, device, amount, merchant);
      && Balance(a.after) == Balance(s) && a.after.generation == s.generation
      && a.after.nextOperation == s.nextOperation + (if a.fault.None? then 1 else 0)
      && a.after.queue == if a.fault.None? || a.fault.value.DisconnectedBeforeAccept? then SpendFor(s.queue, device) else s.queue
  {
    SettledIsSteppable(s);
    RequestKeeps(s, device, amount);
    RequestBalance(s, device, amount);
    StartMeans(s, device, amount, merchant);
    hide Start;
    var r := Requested(s, device, amount);
    hide Requested;
    hide Balance;
    hide Log;
    if Refusal(r, device, amount, merchant).None? {
      hide Refusal;
      var index := FirstFor(r.queue, device).value;
      assert r.queue[index].Valid();
      if r.queue[index].delivery.DisconnectBeforeAccept? {
        FaultBalance(r, index);
      } else {
        AcceptedStart(r, device, amount);
      }
    }
    hide AdvanceTo;
    hide Accepted;
    hide Settled;
  }

  lemma RequestBalance(s: Snapshot, device: string, amount: nat)
    ensures var r := Requested(s, device, amount);
      && Balance(r) == Balance(s) && r.generation == s.generation && r.nextOperation == s.nextOperation
      && r.queue == s.queue && r.nowMs == s.nowMs && r.operations == s.operations && r.devices == s.devices
  {
    var r := Requested(s, device, amount);
    FaultsLog(s.(counters := r.counters), None, PaymentRequest(device, amount));
  }

  lemma FaultBalance(r: Snapshot, index: nat)
    requires index < |r.queue| && r.queue[index].uses > 0
    ensures var t := Log(r.(queue := Spend(r.queue, index)), None, TransportFault);
      && Balance(t) == Balance(r) && t.generation == r.generation && t.nextOperation == r.nextOperation
      && t.queue == Spend(r.queue, index)
  {
    SpendTakesOne(r.queue, index);
    FaultsLog(r.(queue := Spend(r.queue, index)), None, TransportFault);
  }

  lemma ActKeepsBalance(s: Snapshot, id: string, input: Input)
    requires Settled(s)
    ensures Actionable(s.operations)
    ensures var t := Act(s, id, input).after;
      Balance(t) == Balance(s) && t.queue == s.queue && t.generation == s.generation && t.nextOperation == s.nextOperation
  {
    SettledIsSteppable(s);
    ActMeans(s, id, input);
    hide Act;
    hide Permitted;
    hide AdvanceTo;
    hide Balance;
    if id in s.operations && Permitted(s.operations[id], input).Some? {
      ActKeeps(s, id, input);
      hide Settled;
      hide Acted;
      hide Invariant;
      hide Actionable;
      ActedBalance(s, id, input);
      AdvanceKeepsBalance(Acted(s, id, input), s.nowMs);
    } else {
      hide Settled;
    }
  }

  lemma ActedBalance(s: Snapshot, id: string, input: Input)
    requires id in s.operations && Permitted(s.operations[id], input).Some?
    requires Steppable(s.operations[id]) && FailureStageActive(s.operations[id])
    ensures var t := Acted(s, id, input);
      Balance(t) == Balance(s) && t.queue == s.queue && t.generation == s.generation && t.nextOperation == s.nextOperation
  {
    var a := Acted(s, id, input);
    FaultsGrow(s.events, a.events);
  }

  /** Uses armed since the last reset. */
  ghost function Armed(s: Snapshot, calls: seq<Call>, before: nat): nat
    requires Settled(s) && Legal(s, calls)
    decreases |calls|
  {
    if calls == [] then before
    else
      ApplySettles(s, calls[0]);
      var c, a := calls[0], Apply(s, calls[0]);
      Armed(a.after, calls[1..],
            if c.ResetCall? then 0
            else if c.ArmCall? && a.fault.None? then before + c.scenario.uses
            else before)
  }

  lemma CallBalance(s: Snapshot, c: Call)
    requires Settled(s) && Possible(s, c)
    ensures Balance(Apply(s, c).after)
         == if c.ResetCall? then 0
            else if c.ArmCall? && Apply(s, c).fault.None? then Balance(s) + c.scenario.uses
            else Balance(s)
  {
    hide Settled;
    hide AdvanceTo;
    match c
    case ArmCall(scenario) =>
      UsesAppend(s.queue, [scenario]);
      FaultsLog(s, None, ScenarioArmed(scenario.id));
    case SetDeviceCall(device) => FaultsLog(s, None, DeviceConfigured(device.id));
    case StartCall(device, amount, merchant) => StartSpends(s, device, amount, merchant); hide Start; hide Balance;
    case AdvanceCall(delta) => SettledIsSteppable(s); AdvanceBalance(s, delta); hide Advance; hide Balance;
    case ActCall(id, input) => ActKeepsBalance(s, id, input); hide Act; hide Balance;
    case DeliverCall(id) => FaultsGrow(s.events, Deliver(s, id).after.events);
    case ResetCall => FaultsGrow([], Reset(s).events);
  }

  lemma AdvanceBalance(s: Snapshot, delta: nat)
    requires Settled(s) && AllSteppable(s.operations)
    ensures Balance(Advance(s, delta).after) == Balance(s)
    ensures Advance(s, delta).after.queue == s.queue
    ensures Advance(s, delta).after.generation == s.generation
    ensures Advance(s, delta).after.nextOperation == s.nextOperation
  {
    hide AllSteppable;
    hide Balance;
    hide AdvanceTo;
    if s.nowMs + delta <= U64_MAX {
      AdvanceKeepsBalance(s, s.nowMs + delta);
      hide Settled;
    }
  }

  /** Since the last reset: uses armed = uses left + operations accepted + disconnects before accept. */
  lemma {:induction false} UsesConserved(s: Snapshot, calls: seq<Call>)
    requires Settled(s) && Legal(s, calls)
    ensures Balance(Run(s, calls)) == Armed(s, calls, Balance(s))
    decreases |calls|
  {
    hide Apply;
    hide Settled;
    hide Balance;
    hide Possible;
    if calls != [] {
      ApplySettles(s, calls[0]);
      CallBalance(s, calls[0]);
      UsesConserved(Apply(s, calls[0]).after, calls[1..]);
    }
  }

  // ---------------------------------------------------------------- first in, first out per device

  /** The entries queued for one device, in order. */
  function For(queue: seq<Scenario>, device: string): seq<Scenario> {
    if queue == [] then []
    else (if queue[0].deviceId == device then [queue[0]] else []) + For(queue[1..], device)
  }

  lemma {:induction false} ForAppend(queue: seq<Scenario>, scenario: Scenario, device: string)
    ensures For(queue + [scenario], device) == For(queue, device) + if scenario.deviceId == device then [scenario] else []
  {
    if queue == [] {
      assert queue + [scenario] == [scenario] && [scenario][1..] == [];
    } else {
      ForAppend(queue[1..], scenario, device);
      assert (queue + [scenario])[1..] == queue[1..] + [scenario];
    }
  }

  /** What spending for a device does to its own subqueue, and to another's. */
  predicate SpentInTurn(queue: seq<Scenario>, device: string, other: string) {
    var first := FirstFor(queue, device);
    && (first.Some? <==> For(queue, device) != [])
    && (first.Some? ==>
          && queue[first.value] == For(queue, device)[0] && queue[first.value].uses > 0
          && For(SpendFor(queue, device), device) == Spend(For(queue, device), 0))
    && (other != device ==> For(SpendFor(queue, device), other) == For(queue, other))
  }

  lemma SpentBeyondHead(queue: seq<Scenario>, device: string, other: string)
    requires queue != [] && queue[0].deviceId != device && SpentInTurn(queue[1..], device, other)
    ensures SpentInTurn(queue, device, other)
  {
    var rest, first := queue[1..], FirstFor(queue, device);
    if first.Some? {
      SpendBeyondHead(queue, first.value);
      hide Spend;
      var spent := SpendFor(rest, device);
      assert SpendFor(queue, device) == [queue[0]] + spent;
      assert SpendFor(queue, device)[1..] == spent;
    }
  }

  lemma {:induction false} SpendsInTurn(queue: seq<Scenario>, device: string, other: string)
    requires QueueUsable(queue)
    ensures SpentInTurn(queue, device, other)
    decreases |queue|
  {
    if queue != [] {
      UsableAt(queue, 0);
      if queue[0].deviceId == device {
        SpendAtHead(queue, device, other);
      } else {
        UsableBeyond(queue);
        hide QueueUsable;
        hide SpentInTurn;
        SpendsInTurn(queue[1..], device, other);
        SpentBeyondHead(queue, device, other);
      }
    }
  }

  /** Spending takes one use from the head of the device's own subqueue and touches no other. */
  lemma SpendIsFifo(queue: seq<Scenario>, device: string, other: string)
    requires QueueUsable(queue)
    ensures FirstFor(queue, device).Some? <==> For(queue, device) != []
    ensures FirstFor(queue, device).Some? ==> queue[FirstFor(queue, device).value] == For(queue, device)[0]
    ensures FirstFor(queue, device).Some? ==> For(SpendFor(queue, device), device) == Spend(For(queue, device), 0)
    ensures other != device ==> For(SpendFor(queue, device), other) == For(queue, other)
  {
    SpendsInTurn(queue, device, other);
    hide QueueUsable;
    hide For;
    hide SpendFor;
    hide Spend;
  }

  lemma UsableAt(queue: seq<Scenario>, i: nat)
    requires QueueUsable(queue) && i < |queue|
    ensures queue[i].uses > 0
  {
    assert queue[i].Valid();
  }

  lemma UsableBeyond(queue: seq<Scenario>)
    requires QueueUsable(queue) && queue != []
    ensures QueueUsable(queue[1..])
  {
  }

  lemma SpendAtHead(queue: seq<Scenario>, device: string, other: string)
    requires queue != [] && queue[0].deviceId == device && queue[0].uses > 0
    ensures For(SpendFor(queue, device), device) == Spend(For(queue, device), 0)
    ensures other != device ==> For(SpendFor(queue, device), other) == For(queue, other)
  {
    if queue[0].uses == 1 {
      assert Spend(queue, 0) == queue[1..];
      assert Spend(For(queue, device), 0) == For(queue[1..], device);
    } else {
      assert Spend(queue, 0)[1..] == queue[1..];
      assert Spend(For(queue, device), 0)[1..] == For(queue[1..], device);
    }
  }

  /** A start takes the use from the device's own earliest entry, or leaves every subqueue alone. */
  lemma StartIsFifo(s: Snapshot, device: string, amount: nat, merchant: Option<string>, other: string)
    requires Settled(s) && ClockRoom(s)
    ensures AllSteppable(s.operations)
    ensures var a := Start(s, device, amount, merchant);
      && (a.fault.None? || a.fault.value.DisconnectedBeforeAccept? ==>
            && For(s.queue, device) != [] && For(s.queue, device)[0].uses > 0
            && For(a.after.queue, device) == Spend(For(s.queue, device), 0)
            && (other != device ==> For(a.after.queue, other) == For(s.queue, other)))
      && (a.fault.Some? && !a.fault.value.DisconnectedBeforeAccept? ==> a.after.queue == s.queue)
  {
    SettledIsSteppable(s);
    assert s.nowMs <= U64_MAX && QueueUsable(s.queue) by { hide Start; }
    hide Start;
    hide For;
    hide Spend;
    hide Refusal;
    hide SpendFor;
    StartSpends(s, device, amount, merchant);
    hide Settled;
    StartMeans(s, device, amount, merchant);
    var r := Requested(s, device, amount);
    assert r.queue == s.queue;
    hide Requested;
    hide Accepted;
    hide Log;
    hide Actionable;
    SpendIsFifo(s.queue, device, other);
    if FirstFor(s.queue, device).Some? { UsableAt(s.queue, FirstFor(s.queue, device).value); }
    hide QueueUsable;
    AdmittedHasScenario(r, device, amount, merchant);
  }

  lemma AdmittedHasScenario(s: Snapshot, device: string, amount: nat, merchant: Option<string>)
    ensures Refusal(s, device, amount, merchant).None? ==> FirstFor(s.queue, device).Some?
    ensures Refusal(s, device, amount, merchant).Some? ==> !Refusal(s, device, amount, merchant).value.DisconnectedBeforeAccept?
  {
    hide Busy;
  }
}
