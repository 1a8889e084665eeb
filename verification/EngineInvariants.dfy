/** What every engine operation keeps: sound operations, conserved money, unique identities, one
    active payment per device, a usable queue and a complete journal. */
module EngineInvariants {
  import opened Prelude
  import opened EngineModel
  import opened EngineClock
  import opened EngineJournal
  import Ids = OperationIds

  // ---------------------------------------------------------------- one operation

  /** A scenario that must not end in a charge has not gone past the point where it fails. */
  predicate KeepsOutcome(op: Operation) {
    && (op.scenario.outcome.Error? ==>
          && !op.stage.Approved? && !op.stage.Reversed?
          && (!op.stage.Terminal() ==> op.stage.Rank() >= op.scenario.failureStage.Rank()))
    && (op.scenario.outcome.Decline? && !op.scenario.manualBank ==>
          !op.stage.AwaitingConfirmation? && !op.stage.Approved? && !op.stage.Reversed?)
  }

  predicate Sound(op: Operation) {
    && op.scenario.Valid() && KeepsOutcome(op)
    && (op.charged <==> op.stage.Approved?)
    && (op.completedMs.Some? <==> op.stage.Terminal())
    && op.deadlineMs == op.startedMs + op.scenario.timing.timeoutMs <= U64_MAX
    && op.startedMs <= op.stageStartedMs
    && (!op.stage.Terminal() ==> op.stageStartedMs < op.deadlineMs)
    && (op.stage.Terminal() ==> op.completedMs == Some(op.stageStartedMs))
    && (op.stage.Terminal() && !op.stage.Reversed? ==> op.stageStartedMs <= op.deadlineMs)
    && (op.stage.Approved? ==> op.stageStartedMs < op.deadlineMs)
    && (op.responseDelivered ==> op.stage.Terminal())
  }

  lemma SoundStep(op: Operation)
    requires Sound(op) && Due(op).Some?
    ensures Sound(StepOperation(op, Due(op).value))
  {
  }

  lemma {:induction false} SoundAlone(op: Operation, target: nat)
    requires Sound(op) && op.stageStartedMs <= target
    ensures Sound(Alone(op, target)) && Alone(op, target).stageStartedMs <= target
    ensures Alone(op, target).stage.Reversed? <==> op.stage.Reversed?
    ensures op.stage.Terminal() ==> Alone(op, target) == op
    ensures Due(Alone(op, target)).Some? ==> target < Due(Alone(op, target)).value
    decreases op.stage.Rank()
  {
    if Due(op).Some? && Due(op).value <= target {
      StepLowersRank(op, Due(op).value);
      SoundStep(op);
      SoundAlone(StepOperation(op, Due(op).value), target);
    }
  }

  // ---------------------------------------------------------------- all operations

  /** Every operation is sound and none is overdue. */
  ghost predicate Core(ops: map<string, Operation>, now: nat) {
    forall id :: id in ops ==> InPlace(id, ops[id], now)
  }

  predicate InPlace(id: string, op: Operation, now: nat) {
    && Sound(op) && op.id == id && op.stageStartedMs <= now
    && (Due(op).Some? ==> now <= Due(op).value)
  }

  /** The keys are exactly the ids printed so far in this generation. */
  ghost predicate Identified(ids: set<string>, generation: nat, next: nat) {
    && next >= 1
    && (forall n :: 1 <= n < next ==> Ids.Print(generation, n) in ids)
    && (forall id :: id in ids ==> exists n :: 1 <= n < next && id == Ids.Print(generation, n))
  }

  /** Both are active on one device. */
  predicate Competing(a: Operation, b: Operation) {
    a.deviceId == b.deviceId && !a.stage.Terminal() && !b.stage.Terminal()
  }

  ghost predicate OneActive(ops: map<string, Operation>) {
    forall a, b :: a in ops && b in ops && Competing(ops[a], ops[b]) ==> a == b
  }

  predicate IsPaid(op: Operation) { op.stage.Approved? || op.stage.Reversed? }

  ghost function Paid(ops: map<string, Operation>): set<string> {
    set id | id in ops && IsPaid(ops[id])
  }

  ghost function Returned(ops: map<string, Operation>): set<string> {
    set id | id in ops && ops[id].stage.Reversed?
  }

  ghost function Answered(ops: map<string, Operation>): set<string> {
    set id | id in ops && ops[id].responseDelivered
  }

  ghost predicate Money(ops: map<string, Operation>, c: Counters) {
    && c.approvals == |Paid(ops)| && c.reversals == |Returned(ops)| && c.delivered == |Answered(ops)|
    && c.accepted == |ops.Keys| && c.accepted <= c.requests
  }

  ghost predicate Invariant(s: Snapshot) {
    && s.nowMs <= U64_MAX
    && Core(s.operations, s.nowMs) && OneActive(s.operations) && Money(s.operations, s.counters)
    && Identified(s.operations.Keys, s.generation, s.nextOperation)
    && QueueUsable(s.queue) && Complete(s)
  }

  /** Between public calls nothing is due at the present instant either. */
  ghost predicate Settled(s: Snapshot) { Invariant(s) && Quiet(s.operations, s.nowMs) }

  lemma SoundIsSteppable(s: Snapshot)
    requires Core(s.operations, s.nowMs)
    ensures Actionable(s.operations) && OnTime(s) && ActiveUncharged(s.operations)
  {
  }

  // ---------------------------------------------------------------- the clock

  /** How one operation stands after the clock has moved. */
  ghost predicate Carried(was: Operation, op: Operation, target: nat)
    requires Steppable(was)
  {
    && Sound(op) && op.id == was.id && op.deviceId == was.deviceId && op.stageStartedMs <= target
    && (Due(op).Some? ==> target < Due(op).value)
    && op.scenario == was.scenario && op.responseDelivered == was.responseDelivered
    && (op.stage.Reversed? <==> was.stage.Reversed?)
    && (was.stage.Terminal() ==> op == was)
    && (Charges(was, target) <==> op.stage.Approved? && !was.stage.Approved?)
  }

  lemma AloneIsCarried(op: Operation, target: nat)
    requires Sound(op) && op.stageStartedMs <= target
    ensures Carried(op, Alone(op, target), target)
  {
    SoundAlone(op, target);
    AloneKeepsCharge(op, target);
  }

  lemma AllCarried(ops: map<string, Operation>, now: nat, target: nat)
    requires Core(ops, now) && now <= target
    ensures AllSteppable(ops)
    ensures forall id :: id in ops ==> Carried(ops[id], EachAlone(ops, target)[id], target)
  {
    forall id | id in ops ensures Steppable(ops[id]) && Carried(ops[id], Alone(ops[id], target), target) {
      assert InPlace(id, ops[id], now);
      AloneIsCarried(ops[id], target);
    }
  }

  lemma AdvanceKeepsCore(ops: map<string, Operation>, now: nat, target: nat, later: map<string, Operation>)
    requires Core(ops, now) && OneActive(ops) && now <= target
    requires AllSteppable(ops) && later == EachAlone(ops, target)
    ensures Core(later, target) && Quiet(later, target) && OneActive(later) && later.Keys == ops.Keys
  {
    AllCarried(ops, now, target);
    hide Alone;
    hide Sound;
    hide Due;
    forall id | id in later ensures InPlace(id, later[id], target) {
      assert InPlace(id, ops[id], now) && Carried(ops[id], later[id], target);
    }
    forall id | id in later && Due(later[id]).Some? ensures target < Due(later[id]).value {
      assert Carried(ops[id], later[id], target);
    }
    forall a, b | a in later && b in later && Competing(later[a], later[b]) ensures a == b {
      assert Carried(ops[a], later[a], target) && Carried(ops[b], later[b], target);
      assert Competing(ops[a], ops[b]);
    }
  }

  lemma AdvanceKeepsMoney(ops: map<string, Operation>, now: nat, target: nat, c: Counters)
    requires Core(ops, now) && Money(ops, c) && now <= target && AllSteppable(ops)
    ensures Money(EachAlone(ops, target), c.(approvals := c.approvals + |NewlyCharged(ops, target)|))
  {
    var later, charged := EachAlone(ops, target), NewlyCharged(ops, target);
    forall id | id in ops
      ensures && later[id].responseDelivered == ops[id].responseDelivered
              && (later[id].stage.Reversed? <==> ops[id].stage.Reversed?)
              && (IsPaid(later[id]) <==> IsPaid(ops[id]) || id in charged)
              && !(IsPaid(ops[id]) && id in charged)
    {
      assert InPlace(id, ops[id], now);
      AloneIsCarried(ops[id], target);
      assert id in charged <==> Charges(ops[id], target);
    }
    assert later.Keys == ops.Keys && charged <= ops.Keys;
    UnionKeepsMoney(ops, later, charged, c);
  }

  lemma UnionKeepsMoney(ops: map<string, Operation>, later: map<string, Operation>, charged: set<string>, c: Counters)
    requires Money(ops, c) && later.Keys == ops.Keys && charged <= ops.Keys
    requires forall id :: id in ops ==>
      && later[id].responseDelivered == ops[id].responseDelivered
      && (later[id].stage.Reversed? <==> ops[id].stage.Reversed?)
      && (IsPaid(later[id]) <==> IsPaid(ops[id]) || id in charged)
      && !(IsPaid(ops[id]) && id in charged)
    ensures Money(later, c.(approvals := c.approvals + |charged|))
  {
    hide IsPaid;
    assert Paid(later) == Paid(ops) + charged && Paid(ops) !! charged;
    assert Returned(later) == Returned(ops) && Answered(later) == Answered(ops);
  }

  lemma AdvanceKeeps(s: Snapshot, target: nat)
    requires Invariant(s) && s.nowMs <= target <= U64_MAX
    ensures Actionable(s.operations) && Settled(AdvanceTo(s, target))
  {
    hide Drain;
    hide InPlace;
    hide QueueUsable;
    SoundIsSteppable(s);
    hide Core;
    hide OneActive;
    hide Identified;
    AdvanceRefinesIndependentRuns(s, target);
    hide OnTime;
    DrainEnds(s, target);
    DrainIsRead(s, target);
    hide ActiveUncharged;
    hide Quiet;
    AdvanceKeepsCore(s.operations, s.nowMs, target, EachAlone(s.operations, target));
    AdvanceKeepsMoney(s.operations, s.nowMs, target, s.counters);
    hide Money;
    hide EachAlone;
    hide NewlyCharged;
  }

  // ---------------------------------------------------------------- the other steps

  /** A step that leaves operations, clock and charges alone. */
  lemma RemarkKeeps(s: Snapshot, t: Snapshot)
    requires Invariant(s) && Complete(t) && QueueUsable(t.queue)
    requires t.nowMs == s.nowMs && t.generation == s.generation && t.operations == s.operations
    requires t.nextOperation == s.nextOperation
    requires t.counters == s.counters.(requests := t.counters.requests) && s.counters.requests <= t.counters.requests
    ensures Invariant(t)
  {
  }

  lemma NewIdIsNew(s: Snapshot)
    requires Identified(s.operations.Keys, s.generation, s.nextOperation)
    ensures NextId(s) !in s.operations
  {
    if NextId(s) in s.operations {
      var n :| 1 <= n < s.nextOperation && NextId(s) == Ids.Print(s.generation, n);
      Ids.PrintInjective(s.generation, s.nextOperation, s.generation, n);
    }
  }

  /** Room for the deadline of any valid scenario. */
  predicate ClockRoom(s: Snapshot) { s.nowMs + HOUR_MS <= U64_MAX }

  lemma SpendUsable(queue: seq<Scenario>, index: nat)
    requires QueueUsable(queue) && index < |queue|
    ensures QueueUsable(Spend(queue, index))
  {
    assert queue[index].Valid();
    var next := Spend(queue, index);
    forall i | 0 <= i < |next| ensures next[i].Valid() {
      if queue[index].uses == 1 && i >= index {
        assert next[i] == queue[i + 1];
      }
    }
  }

  lemma NewOperationIsSound(s: Snapshot, device: string, amount: nat, scenario: Scenario)
    requires device in s.devices && scenario.Valid() && ClockRoom(s)
    ensures var op := NewOperation(s, device, amount, scenario); InPlace(op.id, op, s.nowMs)
  {
  }

  lemma InsertKeepsMoney(ops: map<string, Operation>, c: Counters, op: Operation)
    requires Money(ops, c) && op.id !in ops && op.stage.Connecting? && !op.responseDelivered && c.accepted < c.requests
    ensures Money(ops[op.id := op], c.(accepted := c.accepted + 1))
  {
    var later := ops[op.id := op];
    assert Paid(later) == Paid(ops) && Returned(later) == Returned(ops) && Answered(later) == Answered(ops);
    assert later.Keys == ops.Keys + {op.id};
  }

  lemma InsertKeepsIdentity(ids: set<string>, generation: nat, next: nat)
    requires Identified(ids, generation, next)
    ensures Identified(ids + {Ids.Print(generation, next)}, generation, next + 1)
  {
    forall id | id in ids + {Ids.Print(generation, next)}
      ensures exists n :: 1 <= n < next + 1 && id == Ids.Print(generation, n)
    {
      if id in ids {
        var n :| 1 <= n < next && id == Ids.Print(generation, n);
      }
    }
  }

  /** A new operation on an idle device competes with none. */
  lemma InsertKeepsCore(ops: map<string, Operation>, now: nat, op: Operation)
    requires Core(ops, now) && OneActive(ops) && op.id !in ops && InPlace(op.id, op, now) && !Busy(ops, op.deviceId)
    ensures Core(ops[op.id := op], now) && OneActive(ops[op.id := op])
  {
    hide InPlace;
  }

  lemma AcceptedFields(s: Snapshot, device: string, amount: nat, index: nat, op: Operation)
    requires device in s.devices && FirstFor(s.queue, device) == Some(index) && QueueUsable(s.queue)
    requires op == NewOperation(s, device, amount, s.queue[index])
    ensures var a := Accepted(s, device, amount);
      && a.operations == s.operations[op.id := op]
      && a.counters == s.counters.(accepted := s.counters.accepted + 1)
      && a.queue == Spend(s.queue, index) && a.nextOperation == s.nextOperation + 1
      && a.generation == s.generation && a.nowMs == s.nowMs
  {
  }

  lemma InsertKeeps(s: Snapshot, op: Operation)
    requires Invariant(s) && s.counters.accepted < s.counters.requests
    requires op.id == NextId(s) && op.stage.Connecting? && !op.responseDelivered
    requires InPlace(op.id, op, s.nowMs) && !Busy(s.operations, op.deviceId)
    ensures var later := s.operations[op.id := op];
      && Core(later, s.nowMs) && OneActive(later)
      && Money(later, s.counters.(accepted := s.counters.accepted + 1))
      && Identified(later.Keys, s.generation, s.nextOperation + 1)
  {
    hide InPlace;
    hide Busy;
    hide Complete;
    hide QueueUsable;
    hide Core;
    hide OneActive;
    hide Money;
    NewIdIsNew(s);
    InsertKeepsMoney(s.operations, s.counters, op);
    InsertKeepsIdentity(s.operations.Keys, s.generation, s.nextOperation);
    InsertKeepsCore(s.operations, s.nowMs, op);
    hide Identified;
    assert s.operations[op.id := op].Keys == s.operations.Keys + {NextId(s)};
  }

  lemma AcceptKeeps(s: Snapshot, device: string, amount: nat)
    requires Invariant(s) && ClockRoom(s) && s.counters.accepted < s.counters.requests
    requires device in s.devices && !Busy(s.operations, device) && FirstFor(s.queue, device).Some?
    ensures Invariant(Accepted(s, device, amount))
  {
    var index := FirstFor(s.queue, device).value;
    var op := NewOperation(s, device, amount, s.queue[index]);
    SpendUsable(s.queue, index);
    NewOperationIsSound(s, device, amount, s.queue[index]);
    AcceptanceIsRead(s, device, amount);
    AcceptedFields(s, device, amount, index, op);
    InsertKeeps(s, op);
    hide InPlace;
    hide Money;
    hide Busy;
    hide Accepted;
    hide Spend;
    hide Complete;
    hide Core;
    hide OneActive;
    hide Identified;
  }

  /** The counters after one operation moved from `was` to `op`. */
  function Recount(was: Operation, op: Operation, c: Counters): Counters {
    c.(approvals := c.approvals + if op.stage.Approved? && !was.stage.Approved? then 1 else 0,
       reversals := c.reversals + if op.stage.Reversed? && !was.stage.Reversed? then 1 else 0,
       delivered := c.delivered + if op.responseDelivered && !was.responseDelivered then 1 else 0)
  }

  /** Paid stays paid, reversal follows approval, delivery is not taken back. */
  predicate Orderly(was: Operation, op: Operation) {
    && (was.stage.Reversed? ==> op.stage.Reversed?)
    && (was.stage.Approved? ==> op.stage.Approved? || op.stage.Reversed?)
    && (op.stage.Reversed? ==> was.stage.Approved? || was.stage.Reversed?)
    && (was.responseDelivered ==> op.responseDelivered)
    && op.deviceId == was.deviceId && (was.stage.Terminal() ==> op.stage.Terminal())
  }

  /** Membership in the three sets is decided operation by operation. */
  lemma MembersAfter(ops: map<string, Operation>, id: string, op: Operation)
    requires id in ops
    ensures var later := ops[id := op]; var one := {id};
      && later.Keys == ops.Keys
      && Paid(later) == (if IsPaid(op) then Paid(ops) + one else Paid(ops) - one)
      && Returned(later) == (if op.stage.Reversed? then Returned(ops) + one else Returned(ops) - one)
      && Answered(later) == (if op.responseDelivered then Answered(ops) + one else Answered(ops) - one)
  {
    hide IsPaid;
  }

  lemma CountAfter(was: set<string>, id: string, joins: bool)
    requires id in was ==> joins
    ensures |(if joins then was + {id} else was - {id})| == |was| + if joins && id !in was then 1 else 0
  {
    if id in was { assert was + {id} == was; } else { assert was - {id} == was; }
  }

  lemma ReplaceKeepsMoney(ops: map<string, Operation>, op: Operation, c: Counters)
    requires op.id in ops && Money(ops, c) && Orderly(ops[op.id], op)
    ensures Money(ops[op.id := op], Recount(ops[op.id], op, c))
  {
    MembersAfter(ops, op.id, op);
    CountAfter(Paid(ops), op.id, IsPaid(op));
    CountAfter(Returned(ops), op.id, op.stage.Reversed?);
    CountAfter(Answered(ops), op.id, op.responseDelivered);
    assert op.id in Paid(ops) <==> IsPaid(ops[op.id]);
    assert op.id in Returned(ops) <==> ops[op.id].stage.Reversed?;
    assert op.id in Answered(ops) <==> ops[op.id].responseDelivered;
    hide Paid;
    hide Returned;
    hide Answered;
  }

  lemma ReplaceKeepsCore(ops: map<string, Operation>, now: nat, op: Operation)
    requires Core(ops, now) && OneActive(ops) && op.id in ops && InPlace(op.id, op, now) && Orderly(ops[op.id], op)
    ensures Core(ops[op.id := op], now) && OneActive(ops[op.id := op])
    ensures ops[op.id := op].Keys == ops.Keys
  {
    hide InPlace;
  }

  /** The move an input brings about: the scenario's failure, or the permitted transition. */
  function InputMove(op: Operation, input: Input, now: nat): Move
    requires Permitted(op, input).Some? && Steppable(op) && FailureStageActive(op)
  {
    if HitsFailure(op, input) then NextMove(op, now)
    else Move(Permitted(op, input).value, InputError(Permitted(op, input).value))
  }

  /** A manual input before the operation is due leaves it sound; it never un-pays or revives it. */
  lemma InputIsOrderly(op: Operation, input: Input, now: nat)
    requires Sound(op) && Permitted(op, input).Some? && op.stageStartedMs <= now <= U64_MAX
    requires Due(op).Some? ==> now < Due(op).value
    ensures Steppable(op) && FailureStageActive(op)
    ensures var move := InputMove(op, input, now); var next := Enter(op, move.stage, now, move.error);
      InPlace(op.id, next, now) && Orderly(op, next)
      && (move.stage.Approved? || move.stage.Reversed? || !op.charged) && !op.stage.Reversed?
  {
  }

  lemma ActedIsATransition(s: Snapshot, id: string, input: Input)
    requires id in s.operations && Permitted(s.operations[id], input).Some?
    requires Steppable(s.operations[id]) && FailureStageActive(s.operations[id])
    ensures var move := InputMove(s.operations[id], input, s.nowMs);
      Acted(s, id, input)
      == Transition(Log(s.(devices := Acted(s, id, input).devices), Some(id), InputReceived(input)), id, move.stage, move.error)
  {
  }

  lemma ActIsRead(s: Snapshot, id: string, input: Input)
    requires Invariant(s) && id in s.operations && Permitted(s.operations[id], input).Some?
    requires Due(s.operations[id]).Some? ==> s.nowMs < Due(s.operations[id]).value
    ensures Actionable(s.operations) && Complete(Acted(s, id, input))
  {
    SoundIsSteppable(s);
    assert InPlace(id, s.operations[id], s.nowMs);
    ActedIsATransition(s, id, input);
    InputIsOrderly(s.operations[id], input, s.nowMs);
    var move := InputMove(s.operations[id], input, s.nowMs);
    var plugged := s.(devices := Acted(s, id, input).devices);
    RemarkIsRead(plugged, Some(id), InputReceived(input));
    TransitionIsRead(Log(plugged, Some(id), InputReceived(input)), id, move.stage, move.error);
  }

  lemma ActKeeps(s: Snapshot, id: string, input: Input)
    requires Settled(s) && id in s.operations && Permitted(s.operations[id], input).Some?
    ensures Actionable(s.operations) && Invariant(Acted(s, id, input))
  {
    ActIsRead(s, id, input);
    ActedIsATransition(s, id, input);
    var op, a := s.operations[id], Acted(s, id, input);
    assert InPlace(id, op, s.nowMs);
    InputIsOrderly(op, input, s.nowMs);
    var move := InputMove(op, input, s.nowMs);
    var next := Enter(op, move.stage, s.nowMs, move.error);
    assert a.operations == s.operations[id := next];
    assert a.counters == Recount(op, next, s.counters);
    ReplaceKeepsCore(s.operations, s.nowMs, next);
    ReplaceKeepsMoney(s.operations, next, s.counters);
    hide InPlace;
    hide Acted;
    hide Due;
    hide Money;
  }

  lemma MarkKeeps(ops: map<string, Operation>, now: nat, id: string, c: Counters)
    requires Core(ops, now) && OneActive(ops) && Money(ops, c) && id in ops
    requires ops[id].stage.Terminal() && !ops[id].responseDelivered
    ensures var later := ops[id := ops[id].(responseDelivered := true)];
      && Core(later, now) && OneActive(later) && later.Keys == ops.Keys
      && Money(later, c.(delivered := c.delivered + 1))
      && (Quiet(ops, now) ==> Quiet(later, now))
  {
    var op := ops[id].(responseDelivered := true);
    MarkedIsOrderly(ops, now, id);
    hide InPlace;
    hide Due;
    hide Core;
    hide Orderly;
    hide OneActive;
    hide Money;
    hide Recount;
    ReplaceKeepsCore(ops, now, op);
    ReplaceKeepsMoney(ops, op, c);
    MarkedCount(ops[id], c);
    QuietWhenMarked(ops, now, id);
    hide Quiet;
  }

  lemma MarkedIsOrderly(ops: map<string, Operation>, now: nat, id: string)
    requires Core(ops, now) && id in ops && ops[id].stage.Terminal() && !ops[id].responseDelivered
    ensures var op := ops[id].(responseDelivered := true); InPlace(id, op, now) && Orderly(ops[id], op) && op.id == id
  {
    assert InPlace(id, ops[id], now);
  }

  lemma MarkedCount(op: Operation, c: Counters)
    requires !op.responseDelivered
    ensures Recount(op, op.(responseDelivered := true), c) == c.(delivered := c.delivered + 1)
  {
  }

  lemma QuietWhenMarked(ops: map<string, Operation>, now: nat, id: string)
    requires id in ops && ops[id].stage.Terminal()
    ensures Quiet(ops, now) ==> Quiet(ops[id := ops[id].(responseDelivered := true)], now)
  {
    assert Due(ops[id].(responseDelivered := true)).None?;
    hide Due;
  }

  lemma DeliverKeeps(s: Snapshot, id: string)
    requires Invariant(s)
    ensures Invariant(Deliver(s, id).after)
    ensures Quiet(s.operations, s.nowMs) ==> Quiet(Deliver(s, id).after.operations, s.nowMs)
  {
    hide Core;
    hide Money;
    hide OneActive;
    hide Complete;
    hide Quiet;
    hide Identified;
    hide QueueUsable;
    DeliveryIsRead(s, id);
    if id in s.operations && s.operations[id].stage.Terminal() && !s.operations[id].responseDelivered {
      MarkKeeps(s.operations, s.nowMs, id, s.counters);
    }
  }

  lemma ResetSettles(s: Snapshot)
    ensures Settled(Reset(s))
  {
    ResetIsRead(s);
    var r := Reset(s);
    assert Paid(r.operations) == {} && Returned(r.operations) == {} && Answered(r.operations) == {};
  }
}
