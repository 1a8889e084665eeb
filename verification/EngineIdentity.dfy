/** Operation identity over whole runs, and the life of a payment that no later call touches. */
module EngineIdentity {
  import opened Prelude
  import opened EngineModel
  import opened EngineClock
  import opened EngineInvariants
  import opened EngineRuns
  import opened EngineLedger
  import Ids = OperationIds

  // ---------------------------------------------------------------- ids are never reused

  /** The ids handed out by a run, in order. */
  ghost function Issued(s: Snapshot, calls: seq<Call>): seq<string>
    requires Settled(s) && Legal(s, calls)
    decreases |calls|
  {
    if calls == [] then []
    else
      ApplySettles(s, calls[0]);
      var a := Apply(s, calls[0]);
      (if calls[0].StartCall? && a.fault.None? then [NextId(s)] else []) + Issued(a.after, calls[1..])
  }

  ghost predicate Later(id: string, generation: nat, next: nat) {
    exists g: nat, n: nat :: id == Ids.Print(g, n) && (g > generation || (g == generation && n >= next))
  }

  lemma CallMovesIds(s: Snapshot, c: Call)
    requires Settled(s) && Possible(s, c)
    ensures var a := Apply(s, c);
      if c.ResetCall? then a.after.generation == s.generation + 1
      else a.after.generation == s.generation
           && a.after.nextOperation == s.nextOperation + if c.StartCall? && a.fault.None? then 1 else 0
  {
    hide Settled;
    hide Start;
    hide Act;
    hide Advance;
    hide Balance;
    hide SpendFor;
    SettledIsSteppable(s);
    hide Actionable;
    match c
    case StartCall(device, amount, merchant) => StartSpends(s, device, amount, merchant);
    case AdvanceCall(delta) => AdvanceBalance(s, delta);
    case ActCall(id, input) => ActKeepsBalance(s, id, input);
    case ArmCall(_) =>
    case SetDeviceCall(_) =>
    case DeliverCall(_) =>
    case ResetCall =>
  }

  lemma {:induction false} IssuedLater(s: Snapshot, calls: seq<Call>, i: nat)
    requires Settled(s) && Legal(s, calls) && i < |Issued(s, calls)|
    ensures Later(Issued(s, calls)[i], s.generation, s.nextOperation)
    decreases |calls|
  {
    hide Apply;
    hide Settled;
    hide Possible;
    var a := Apply(s, calls[0]);
    ApplySettles(s, calls[0]);
    CallMovesIds(s, calls[0]);
    var own := if calls[0].StartCall? && a.fault.None? then 1 else 0;
    if i < own {
      assert Issued(s, calls)[i] == Ids.Print(s.generation, s.nextOperation);
    } else {
      IssuedLater(a.after, calls[1..], i - own);
    }
  }

  /** No id is handed out twice in a run, whatever resets it contains. */
  lemma {:induction false} IdsNeverRepeat(s: Snapshot, calls: seq<Call>, i: nat, j: nat)
    requires Settled(s) && Legal(s, calls) && i < j < |Issued(s, calls)|
    ensures Issued(s, calls)[i] != Issued(s, calls)[j]
    decreases |calls|
  {
    hide Apply;
    hide Settled;
    hide Possible;
    var a := Apply(s, calls[0]);
    ApplySettles(s, calls[0]);
    CallMovesIds(s, calls[0]);
    var own := if calls[0].StartCall? && a.fault.None? then 1 else 0;
    if i < own {
      IssuedLater(a.after, calls[1..], j - 1);
      var g: nat, n: nat :| Issued(a.after, calls[1..])[j - 1] == Ids.Print(g, n)
                  && (g > a.after.generation || (g == a.after.generation && n >= a.after.nextOperation));
      if Issued(s, calls)[i] == Issued(s, calls)[j] {
        Ids.PrintInjective(s.generation, s.nextOperation, g, n);
      }
    } else {
      IdsNeverRepeat(a.after, calls[1..], i - own, j - own);
    }
  }

  /** An id printed in an earlier generation is not found after a reset. */
  lemma OldIdsAreUnknown(s: Snapshot, generation: nat, number: nat)
    requires Settled(s) && generation != s.generation
    ensures Ids.Print(generation, number) !in s.operations
  {
    var id := Ids.Print(generation, number);
    if id in s.operations {
      var n :| 1 <= n < s.nextOperation && id == Ids.Print(s.generation, n);
      Ids.PrintInjective(generation, number, s.generation, n);
    }
  }

  // ---------------------------------------------------------------- results

  /** After any run the operations are exactly those printed so far in the present generation. */
  lemma KeysAreThePrintedIds(epoch: Option<nat>, calls: seq<Call>, id: string)
    requires Settled(Fresh(epoch, 1, 1)) && Legal(Fresh(epoch, 1, 1), calls)
    ensures var s := Run(Fresh(epoch, 1, 1), calls);
      id in s.operations <==> exists n :: 1 <= n < s.nextOperation && id == Ids.Print(s.generation, n)
  {
    var s := Run(Fresh(epoch, 1, 1), calls);
    assert Identified(s.operations.Keys, s.generation, s.nextOperation);
    hide Settled;
    hide Run;
  }

  /** An approval reports the very number its operation was accepted under. */
  lemma ReceiptNamesItsOperation(s: Snapshot, id: string) returns (number: nat)
    requires Settled(s) && id in s.operations && s.nextOperation <= U64_MAX
    requires s.operations[id].stage.Approved? && s.operations[id].scenario.referenceError.None?
    ensures 1 <= number < s.nextOperation && id == Ids.Print(s.generation, number)
    ensures Receive(s, id).Ok? && Receive(s, id).value.Approval?
    ensures Receive(s, id).value.sequence == number && Receive(s, id).value.rrn == Rrn(s.generation, number)
    ensures Receive(s, id).value.amount == s.operations[id].amount
  {
    assert InPlace(id, s.operations[id], s.nowMs);
    number :| 1 <= number < s.nextOperation && id == Ids.Print(s.generation, number);
    Ids.NumberRoundTrips(s.generation, number);
  }

  /** Two references are equal exactly when their 64-bit serials agree modulo 10^12. */
  lemma ReferencesCollideExactly(g1: nat, n1: nat, g2: nat, n2: nat)
    ensures Rrn(g1, n1) == Rrn(g2, n2) <==> (Serial(g1, n1) - Serial(g2, n2)) % 1_000_000_000_000 == 0
    ensures g1 * 1_000_000 + n1 <= U64_MAX ==> Serial(g1, n1) == g1 * 1_000_000 + n1
  {
    SameRemainder(Serial(g1, n1), Serial(g2, n2));
  }

  lemma SameRemainder(a: nat, b: nat)
    ensures a % 1_000_000_000_000 == b % 1_000_000_000_000 <==> (a - b) % 1_000_000_000_000 == 0
  {
    var m := 1_000_000_000_000;
    assert a == m * (a / m) + a % m && b == m * (b / m) + b % m;
    assert a - b == m * (a / m - b / m) + (a % m - b % m);
  }

  /** For any two operations whose serials fit 64 bits, references coincide exactly when a million times
      the generations' difference plus the numbers' difference is a multiple of 10^12. So for serials less
      than 10^12 apart they coincide exactly when the numbers make up for the generations; and for numbers
      less than 1,000,000 apart, exactly for equal numbers a multiple of 1,000,000 generations apart, which
      among any million generations means the same operation. */
  lemma ReferencesDistinct(g1: nat, n1: nat, g2: nat, n2: nat)
    requires g1 * 1_000_000 + n1 <= U64_MAX && g2 * 1_000_000 + n2 <= U64_MAX
    ensures Rrn(g1, n1) == Rrn(g2, n2) <==> ((g1 - g2) * 1_000_000 + (n1 - n2)) % 1_000_000_000_000 == 0
    ensures -1_000_000_000_000 < (g1 - g2) * 1_000_000 + (n1 - n2) < 1_000_000_000_000 ==>
      (Rrn(g1, n1) == Rrn(g2, n2) <==> (g1 - g2) * 1_000_000 == n2 - n1)
    ensures -1_000_000 < n1 - n2 < 1_000_000 ==>
      (Rrn(g1, n1) == Rrn(g2, n2) <==> n1 == n2 && (g1 - g2) % 1_000_000 == 0)
    ensures -1_000_000 < n1 - n2 < 1_000_000 && -1_000_000 < g1 - g2 < 1_000_000 ==>
      (Rrn(g1, n1) == Rrn(g2, n2) <==> g1 == g2 && n1 == n2)
  {
    ReferencesCollideExactly(g1, n1, g2, n2);
    ReferencesCollideExactly(g2, n2, g1, n1);
    hide Rrn;
    hide Serial;
    if -1_000_000 < n1 - n2 < 1_000_000 {
      DifferenceSplits(g1 - g2, n1 - n2);
    }
  }

  lemma DifferenceSplits(g: int, n: int)
    requires -1_000_000 < n < 1_000_000
    ensures (g * 1_000_000 + n) % 1_000_000_000_000 == 0 <==> n == 0 && g % 1_000_000 == 0
  {
    var m := 1_000_000;
    var d := g * m + n;
    if d % (m * m) == 0 {
      assert d == m * (m * (d / (m * m)));
      assert n == m * (m * (d / (m * m)) - g);
    }
  }

  /** The bounds matter: operation 1,000,001 of one generation shares its reference with the next, and
      operation 1 with that of a million generations later. */
  lemma ReferencesCanCollide()
    ensures Rrn(1, 1_000_001) == Rrn(2, 1)
    ensures Rrn(1, 1) == Rrn(1_000_001, 1)
  {
  }

  // ---------------------------------------------------------------- a payment left to itself

  lemma {:induction false} AloneComposes(op: Operation, middle: nat, target: nat)
    requires Steppable(op) && middle <= target
    ensures Steppable(Alone(op, middle))
    ensures Alone(Alone(op, middle), target) == Alone(op, target)
    decreases op.stage.Rank()
  {
    if Due(op).Some? && Due(op).value <= middle {
      StepLowersRank(op, Due(op).value);
      AloneComposes(StepOperation(op, Due(op).value), middle, target);
    }
  }

  predicate Touches(c: Call, id: string) {
    c.ResetCall? || (c.ActCall? && c.id == id) || (c.DeliverCall? && c.id == id)
  }

  /** `t` holds the operation of `s` as it would stand alone. */
  ghost predicate LeftAlone(s: Snapshot, t: Snapshot, id: string)
    requires id in s.operations && Steppable(s.operations[id])
  {
    s.nowMs <= t.nowMs && id in t.operations && t.operations[id] == Alone(s.operations[id], t.nowMs)
  }

  lemma AdvanceLeavesAlone(s: Snapshot, target: nat, id: string)
    requires Invariant(s) && s.nowMs <= target <= U64_MAX && id in s.operations
    ensures AllSteppable(s.operations) && LeftAlone(s, AdvanceTo(s, target), id)
  {
    SoundIsSteppable(s);
    AdvanceRefinesIndependentRuns(s, target);
    hide Drain;
  }

  lemma StartLeavesAlone(s: Snapshot, device: string, amount: nat, merchant: Option<string>, id: string)
    requires Settled(s) && ClockRoom(s) && id in s.operations
    ensures Actionable(s.operations) && LeftAlone(s, Start(s, device, amount, merchant).after, id)
  {
    SettledIsSteppable(s);
    SettledStandsStill(s, id);
    hide Alone;
    hide Due;
    RequestKeeps(s, device, amount);
    NewIdIsNew(s);
    StartMeans(s, device, amount, merchant);
    hide Start;
    var r := Requested(s, device, amount);
    assert r.operations == s.operations && r.nowMs == s.nowMs && NextId(r) == NextId(s);
    hide Requested;
    if Refusal(r, device, amount, merchant).Some? {
      hide Refusal;
      hide Settled;
    } else {
      hide Refusal;
      var index := FirstFor(r.queue, device).value;
      if r.queue[index].delivery.DisconnectBeforeAccept? {
        hide Settled;
      } else {
        AcceptedLeavesAlone(r, device, amount, id);
        hide Settled;
        hide Accepted;
        hide AdvanceTo;
      }
    }
  }

  lemma AcceptedLeavesAlone(r: Snapshot, device: string, amount: nat, id: string)
    requires Invariant(r) && ClockRoom(r) && r.counters.accepted < r.counters.requests
    requires device in r.devices && !Busy(r.operations, device) && FirstFor(r.queue, device).Some?
    requires id in r.operations && id != NextId(r)
    ensures AllSteppable(Accepted(r, device, amount).operations) && Steppable(r.operations[id])
    ensures LeftAlone(r, AdvanceTo(Accepted(r, device, amount), r.nowMs), id)
  {
    AcceptKeeps(r, device, amount);
    var index := FirstFor(r.queue, device).value;
    AcceptedFields(r, device, amount, index, NewOperation(r, device, amount, r.queue[index]));
    AdvanceLeavesAlone(Accepted(r, device, amount), r.nowMs, id);
    hide Accepted;
    hide AdvanceTo;
    hide Invariant;
  }

  lemma ActedLeavesOthers(s: Snapshot, other: string, input: Input, id: string)
    requires other in s.operations && id in s.operations && other != id && Permitted(s.operations[other], input).Some?
    requires Steppable(s.operations[other]) && FailureStageActive(s.operations[other])
    ensures var t := Acted(s, other, input); id in t.operations && t.operations[id] == s.operations[id] && t.nowMs == s.nowMs
  {
  }

  lemma ActLeavesAlone(s: Snapshot, other: string, input: Input, id: string)
    requires Settled(s) && Actionable(s.operations) && id in s.operations && other != id
    requires Alone(s.operations[id], s.nowMs) == s.operations[id]
    ensures LeftAlone(s, Act(s, other, input).after, id)
  {
    if other in s.operations && Permitted(s.operations[other], input).Some? {
      ActKeeps(s, other, input);
      ActedLeavesOthers(s, other, input, id);
      hide Acted;
      AdvanceLeavesAlone(Acted(s, other, input), s.nowMs, id);
      hide AdvanceTo;
    }
    hide Settled;
    hide Alone;
  }

  lemma AdvanceCallLeavesAlone(s: Snapshot, delta: nat, id: string)
    requires Settled(s) && Actionable(s.operations) && id in s.operations
    requires Alone(s.operations[id], s.nowMs) == s.operations[id]
    ensures LeftAlone(s, Advance(s, delta).after, id)
  {
    hide AdvanceTo;
    hide Alone;
    hide Due;
    hide Invariant;
    hide Quiet;
    hide FailureStageActive;
    if s.nowMs + delta <= U64_MAX {
      AdvanceLeavesAlone(s, s.nowMs + delta, id);
      hide Settled;
    }
  }

  lemma SettledStandsStill(s: Snapshot, id: string)
    requires Settled(s) && id in s.operations
    ensures Actionable(s.operations) && Alone(s.operations[id], s.nowMs) == s.operations[id]
  {
    SettledIsSteppable(s);
  }

  lemma CallLeavesAlone(s: Snapshot, c: Call, id: string)
    requires Settled(s) && Possible(s, c) && id in s.operations && !Touches(c, id)
    ensures Actionable(s.operations) && LeftAlone(s, Apply(s, c).after, id)
  {
    hide Alone;
    hide Settled;
    hide Due;
    SettledStandsStill(s, id);
    hide Actionable;
    hide Start;
    hide Act;
    hide Advance;
    match c
    case StartCall(device, amount, merchant) => StartLeavesAlone(s, device, amount, merchant, id);
    case AdvanceCall(delta) => AdvanceCallLeavesAlone(s, delta, id);
    case ActCall(other, input) => ActLeavesAlone(s, other, input, id);
    case ArmCall(_) =>
    case SetDeviceCall(_) =>
    case DeliverCall(_) =>
  }

  lemma {:induction false} RunLeavesAlone(s: Snapshot, calls: seq<Call>, id: string)
    requires Settled(s) && Legal(s, calls) && id in s.operations
    requires forall i :: 0 <= i < |calls| ==> !Touches(calls[i], id)
    ensures Actionable(s.operations) && LeftAlone(s, Run(s, calls), id)
    decreases |calls|
  {
    SettledIsSteppable(s);
    if calls == [] {
      assert Alone(s.operations[id], s.nowMs) == s.operations[id];
    } else {
      var t := Apply(s, calls[0]).after;
      ApplySettles(s, calls[0]);
      CallLeavesAlone(s, calls[0], id);
      RunLeavesAlone(t, calls[1..], id);
      SettledIsSteppable(t);
      AloneComposes(s.operations[id], t.nowMs, Run(t, calls[1..]).nowMs);
      hide Apply;
    }
    hide Settled;
  }

  /** An accepted, automatic, non-manual-bank payment that no later call touches follows its closed-form
      timeline, whatever other payments, arming, devices and clock ticks the run contains. */
  lemma UntouchedPaymentKeepsItsTimeline(
    s: Snapshot, device: string, amount: nat, merchant: Option<string>,
    a: Snapshot, op: Operation, calls: seq<Call>)
    requires Settled(s) && ClockRoom(s) && AllSteppable(s.operations)
    requires Start(s, device, amount, merchant) == Answer(a, None)
    requires device in s.devices && FirstFor(s.queue, device).Some?
    requires op == NewOperation(s, device, amount, s.queue[FirstFor(s.queue, device).value])
    requires Untouched(op.scenario) && Settled(a) && Legal(a, calls)
    requires forall i :: 0 <= i < |calls| ==> !Touches(calls[i], op.id)
    ensures var end := Run(a, calls);
      && op.id == NextId(s) && op.id in end.operations && s.nowMs <= end.nowMs
      && end.operations[op.id] == Timeline(op, end.nowMs - s.nowMs)
  {
    hide *;
    NewOperationStarts(s, device, amount, s.queue[FirstFor(s.queue, device).value], op);
    StartedAlone(s, device, amount, merchant);
    FromStartToEnd(s.nowMs, a, calls, op);
  }

  lemma NewOperationStarts(s: Snapshot, device: string, amount: nat, scenario: Scenario, op: Operation)
    requires device in s.devices && op == NewOperation(s, device, amount, scenario)
    requires ClockRoom(s) && Untouched(op.scenario)
    ensures
      && op.stage.Connecting? && op.startedMs == s.nowMs && op.stageStartedMs == s.nowMs && op.scenario == scenario
      && op.deadlineMs == s.nowMs + op.scenario.timing.timeoutMs <= U64_MAX
      && !op.charged && op.errorId.None? && op.completedMs.None? && op.id == NextId(s)
  {
  }

  lemma FromStartToEnd(now: nat, a: Snapshot, calls: seq<Call>, op: Operation)
    requires Settled(a) && Legal(a, calls) && a.nowMs == now && Untouched(op.scenario)
    requires op.stage.Connecting? && op.startedMs == now && op.stageStartedMs == now
    requires op.deadlineMs == now + op.scenario.timing.timeoutMs <= U64_MAX
    requires !op.charged && op.errorId.None? && op.completedMs.None?
    requires op.id in a.operations && a.operations[op.id] == Alone(op, now)
    requires forall i :: 0 <= i < |calls| ==> !Touches(calls[i], op.id)
    ensures var end := Run(a, calls);
      && op.id in end.operations && now <= end.nowMs
      && end.operations[op.id] == Timeline(op, end.nowMs - now)
  {
    hide Run;
    hide Legal;
    hide Timeline;
    hide Alone;
    hide Touches;
    hide Invariant;
    hide Quiet;
    RunLeavesAlone(a, calls, op.id);
    ClockInRange(Run(a, calls));
    hide Settled;
    hide Actionable;
    AloneComposes(op, now, Run(a, calls).nowMs);
    ClosedFormTimeline(op, Run(a, calls).nowMs);
  }

  lemma ClockInRange(s: Snapshot)
    requires Settled(s)
    ensures s.nowMs <= U64_MAX
  {
  }

  lemma StartedAlone(s: Snapshot, device: string, amount: nat, merchant: Option<string>)
    requires Settled(s) && ClockRoom(s) && AllSteppable(s.operations)
    requires Start(s, device, amount, merchant).fault.None?
    ensures device in s.devices && FirstFor(s.queue, device).Some?
    ensures var op := NewOperation(s, device, amount, s.queue[FirstFor(s.queue, device).value]);
      var t := Start(s, device, amount, merchant).after;
      && Steppable(op) && op.id == NextId(s) && t.nowMs == s.nowMs
      && op.id in t.operations && t.operations[op.id] == Alone(op, s.nowMs)
  {
    RequestKeeps(s, device, amount);
    StartMeans(s, device, amount, merchant);
    hide Start;
    hide Settled;
    hide AllSteppable;
    hide AdvanceTo;
    hide Alone;
    hide Accepted;
    var r := Requested(s, device, amount);
    assert r.queue == s.queue && r.devices == s.devices && r.nowMs == s.nowMs && NextId(r) == NextId(s) && r.generation == s.generation
      && r.nextOperation == s.nextOperation;
    hide Requested;
    AdmittedIsFree(r, device, amount, merchant);
    hide Refusal;
    hide Invariant;
    AcceptedAlone(r, device, amount);
  }

  lemma AdmittedIsFree(r: Snapshot, device: string, amount: nat, merchant: Option<string>)
    ensures Refusal(r, device, amount, merchant).None? ==>
      device in r.devices && !Busy(r.operations, device) && FirstFor(r.queue, device).Some?
  {
    hide Busy;
  }

  lemma AcceptedAlone(r: Snapshot, device: string, amount: nat)
    requires Invariant(r) && ClockRoom(r) && r.counters.accepted < r.counters.requests
    requires device in r.devices && !Busy(r.operations, device) && FirstFor(r.queue, device).Some?
    ensures AllSteppable(Accepted(r, device, amount).operations)
    ensures var op := NewOperation(r, device, amount, r.queue[FirstFor(r.queue, device).value]);
      var t := AdvanceTo(Accepted(r, device, amount), r.nowMs);
      && Steppable(op) && op.id == NextId(r) && t.nowMs == r.nowMs
      && op.id in t.operations && t.operations[op.id] == Alone(op, r.nowMs)
  {
    var index := FirstFor(r.queue, device).value;
    var op := NewOperation(r, device, amount, r.queue[index]);
    AcceptKeeps(r, device, amount);
    AcceptedFields(r, device, amount, index, op);
    hide Accepted;
    hide Invariant;
    hide Busy;
    hide Alone;
    hide AdvanceTo;
    AdvanceLeavesAlone(Accepted(r, device, amount), r.nowMs, op.id);
  }
}
