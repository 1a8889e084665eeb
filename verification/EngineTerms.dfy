/** What no call but a delivery or a reset may change: the terms of every accepted payment. */
module EngineTerms {
  import opened Prelude
  import opened EngineModel
  import opened EngineClock
  import opened EngineInvariants
  import opened EngineRuns
  import opened EngineIdentity
  import Ids = OperationIds

  /** Only the course of the payment differs: stage, its times, charge and error. */
  predicate SameTerms(was: Operation, op: Operation) {
    was == op.(stage := was.stage, stageStartedMs := was.stageStartedMs, completedMs := was.completedMs,
               charged := was.charged, errorId := was.errorId)
  }

  /** The payment is still there under its terms, over if it was, and paid for if it was. */
  predicate KeptIn(ops: map<string, Operation>, id: string, was: Operation) {
    && id in ops && SameTerms(was, ops[id])
    && (was.stage.Terminal() ==> ops[id].stage.Terminal()) && (IsPaid(was) ==> IsPaid(ops[id]))
  }

  /** One generation goes on: every payment is kept, and none is newly delivered. */
  ghost predicate Follows(s: Snapshot, t: Snapshot) {
    && t.generation == s.generation && s.nextOperation <= t.nextOperation
    && (forall id :: id in s.operations ==> KeptIn(t.operations, id, s.operations[id]))
    && (forall id :: id in t.operations && id !in s.operations ==> !t.operations[id].responseDelivered)
  }

  lemma FollowsTransitive(s: Snapshot, t: Snapshot, u: Snapshot)
    requires Follows(s, t) && Follows(t, u)
    ensures Follows(s, u)
  {
    forall id | id in s.operations ensures KeptIn(u.operations, id, s.operations[id]) {
      assert KeptIn(t.operations, id, s.operations[id]) && KeptIn(u.operations, id, t.operations[id]);
    }
    forall id | id in u.operations && id !in s.operations ensures !u.operations[id].responseDelivered {
      if id in t.operations {
        assert KeptIn(u.operations, id, t.operations[id]);
      }
    }
  }

  lemma {:induction false} AloneKeepsTerms(op: Operation, target: nat)
    requires Steppable(op)
    ensures SameTerms(op, Alone(op, target))
    ensures (op.stage.Terminal() ==> Alone(op, target).stage.Terminal()) && (IsPaid(op) ==> IsPaid(Alone(op, target)))
    decreases op.stage.Rank()
  {
    if Due(op).Some? && Due(op).value <= target {
      StepLowersRank(op, Due(op).value);
      AloneKeepsTerms(StepOperation(op, Due(op).value), target);
    }
  }

  lemma ActKeepsTerms(s: Snapshot, id: string, input: Input)
    requires Settled(s) && id in s.operations
    ensures Actionable(s.operations)
    ensures KeptIn(Act(s, id, input).after.operations, id, s.operations[id])
  {
    SettledIsSteppable(s);
    if Permitted(s.operations[id], input).Some? {
      ActKeeps(s, id, input);
      var a := Acted(s, id, input);
      ActedKeepsTerms(s, id, input);
      SoundIsSteppable(a);
      assert Steppable(a.operations[id]);
      AdvanceLeavesAlone(a, s.nowMs, id);
      AloneKeepsTerms(a.operations[id], s.nowMs);
      hide Acted;
      hide AdvanceTo;
      hide Settled;
      hide Alone;
    }
  }

  lemma ActedKeepsTerms(s: Snapshot, id: string, input: Input)
    requires id in s.operations && Permitted(s.operations[id], input).Some?
    requires Steppable(s.operations[id]) && FailureStageActive(s.operations[id])
    ensures Acted(s, id, input).nowMs == s.nowMs
    ensures KeptIn(Acted(s, id, input).operations, id, s.operations[id])
  {
  }

  /** A newly accepted payment is the only new one. */
  lemma OnlyTheNextIsNew(s: Snapshot, t: Snapshot, id: string)
    requires Identified(s.operations.Keys, s.generation, s.nextOperation)
    requires Identified(t.operations.Keys, t.generation, t.nextOperation)
    requires t.generation == s.generation && t.nextOperation <= s.nextOperation + 1
    requires id in t.operations && id !in s.operations
    ensures id == NextId(s) && t.nextOperation == s.nextOperation + 1
  {
    var n :| 1 <= n < t.nextOperation && id == Ids.Print(t.generation, n);
    assert n >= s.nextOperation;
  }

  lemma StartedTerms(s: Snapshot, device: string, amount: nat, merchant: Option<string>)
    requires Settled(s) && ClockRoom(s) && AllSteppable(s.operations)
    requires Start(s, device, amount, merchant).fault.None?
    ensures var t := Start(s, device, amount, merchant).after; var id := NextId(s);
      id in t.operations && t.operations[id].amount == amount && t.operations[id].deviceId == device
      && device in s.devices && t.operations[id].merchant == s.devices[device].merchant
      && !t.operations[id].responseDelivered
  {
    StartedAlone(s, device, amount, merchant);
    var op := NewOperation(s, device, amount, s.queue[FirstFor(s.queue, device).value]);
    AloneKeepsTerms(op, s.nowMs);
    hide Start;
    hide Alone;
    hide Settled;
  }

  lemma CallFollows(s: Snapshot, c: Call)
    requires Settled(s) && Possible(s, c) && !c.ResetCall? && !c.DeliverCall?
    ensures Follows(s, Apply(s, c).after)
  {
    var t := Apply(s, c).after;
    CallMovesIds(s, c);
    ApplySettles(s, c);
    forall id | id in s.operations ensures KeptIn(t.operations, id, s.operations[id]) {
      CallKeepsTerms(s, c, id);
    }
    forall id | id in t.operations && id !in s.operations ensures !t.operations[id].responseDelivered {
      OnlyTheNextIsNew(s, t, id);
      StartIsTheOne(s, c);
    }
    hide Apply;
    hide Settled;
  }

  lemma CallKeepsTerms(s: Snapshot, c: Call, id: string)
    requires Settled(s) && Possible(s, c) && !c.ResetCall? && !c.DeliverCall? && id in s.operations
    ensures KeptIn(Apply(s, c).after.operations, id, s.operations[id])
  {
    hide Settled;
    SettledIsSteppable(s);
    if c.ActCall? && c.id == id {
      ActKeepsTerms(s, id, c.input);
      hide Act;
    } else {
      CallLeavesAlone(s, c, id);
      AloneKeepsTerms(s.operations[id], Apply(s, c).after.nowMs);
      hide Apply;
      hide Alone;
    }
  }

  lemma StartIsTheOne(s: Snapshot, c: Call)
    requires Settled(s) && Possible(s, c) && !c.ResetCall? && !c.DeliverCall?
    requires Apply(s, c).after.nextOperation == s.nextOperation + 1
    ensures var t := Apply(s, c).after; NextId(s) in t.operations && !t.operations[NextId(s)].responseDelivered
  {
    CallMovesIds(s, c);
    SettledIsSteppable(s);
    hide Settled;
    if c.StartCall? {
      StartedTerms(s, c.deviceId, c.amount, c.merchant);
      hide Start;
    } else {
      hide Apply;
    }
  }

  // ---------------------------------------------------------------- what a journal entry names

  /** Entries of this kind are about one payment. */
  predicate AboutPayment(kind: EventKind) {
    kind.Started? || kind.Entered? || kind.InputReceived? || kind.ResponseDelivered?
  }

  /** An entry about a payment names one that is there, its device and its scenario; any other names none. */
  predicate Names(e: Event, ops: map<string, Operation>) {
    if AboutPayment(e.kind) then
      e.operationId.Some? && e.charged.Some? && var id := e.operationId.value;
      id in ops && e.deviceId == Some(ops[id].deviceId) && e.scenarioId == Some(ops[id].scenario.id)
    else e.operationId.None? && e.deviceId.None? && e.scenarioId.None? && e.charged.None?
  }

  predicate Labelled(s: Snapshot) {
    forall i :: 0 <= i < |s.events| ==> Names(s.events[i], s.operations)
  }

  lemma LogLabels(s: Snapshot, id: Option<string>, kind: EventKind)
    requires Labelled(s) && (id.Some? <==> AboutPayment(kind)) && (id.Some? ==> id.value in s.operations)
    ensures Labelled(Log(s, id, kind))
  {
    var t := Log(s, id, kind);
    assert Names(Entry(s, id, kind), t.operations);
    hide Names;
  }

  lemma Relabel(s: Snapshot, t: Snapshot)
    requires Labelled(s) && t.events == s.events
    requires forall id :: id in s.operations ==>
      id in t.operations && t.operations[id].deviceId == s.operations[id].deviceId
      && t.operations[id].scenario == s.operations[id].scenario
    ensures Labelled(t)
  {
  }

  lemma TransitionLabels(s: Snapshot, id: string, stage: Stage, error: Option<ErrorId>)
    requires Labelled(s) && id in s.operations
    ensures Labelled(Transition(s, id, stage, error))
  {
    hide Labelled;
    var op := s.operations[id];
    var t := s.(operations := s.operations[id := Enter(op, stage, s.nowMs, error)],
           counters := s.counters.(
             approvals := s.counters.approvals + if stage.Approved? && !op.charged then 1 else 0,
             reversals := s.counters.reversals + if stage.Reversed? && op.charged then 1 else 0));
    Relabel(s, t);
    LogLabels(t, Some(id), Entered(stage));
  }

  lemma {:induction false} DrainLabels(s: Snapshot, target: nat)
    requires AllSteppable(s.operations) && Labelled(s)
    ensures Labelled(Drain(s, target))
    decreases RankSum(s.operations)
  {
    hide Labelled;
    NextExists(s.operations, target);
    if id :| IsNext(s.operations, target, id) {
      DrainFires(s, target, id);
      FireLowersRankSum(s, id);
      var turned := s.(nowMs := Max(Due(s.operations[id]).value, s.nowMs));
      Relabel(s, turned);
      var move := NextMove(s.operations[id], turned.nowMs);
      TransitionLabels(turned, id, move.stage, move.error);
      DrainLabels(Fire(s, id), target);
    } else {
      DrainStops(s, target);
    }
  }

  lemma AdvanceToLabels(s: Snapshot, target: nat)
    requires AllSteppable(s.operations) && s.nowMs <= target && Labelled(s)
    ensures Labelled(AdvanceTo(s, target))
  {
    DrainLabels(s, target);
    DrainEnds(s, target);
    hide Drain;
    hide AllSteppable;
  }

  lemma AcceptedLabels(s: Snapshot, device: string, amount: nat)
    requires device in s.devices && FirstFor(s.queue, device).Some? && QueueUsable(s.queue)
    requires Labelled(s) && NextId(s) !in s.operations
    ensures Labelled(Accepted(s, device, amount))
  {
    var index := FirstFor(s.queue, device).value;
    assert s.queue[index].uses > 0;
    hide Labelled;
    hide QueueUsable;
    var op := NewOperation(s, device, amount, s.queue[index]);
    var t := s.(queue := Spend(s.queue, index),
           nextOperation := s.nextOperation + 1,
           counters := s.counters.(accepted := s.counters.accepted + 1),
           operations := s.operations[op.id := op]);
    Relabel(s, t);
    LogLabels(t, Some(op.id), Started);
  }

  lemma RequestLabels(s: Snapshot, device: string, amount: nat)
    requires Labelled(s)
    ensures var r := Requested(s, device, amount);
      && Labelled(r) && r.operations == s.operations && r.queue == s.queue && r.nowMs == s.nowMs
      && r.generation == s.generation && r.nextOperation == s.nextOperation
  {
    hide Labelled;
    var counted := s.(counters := s.counters.(requests := s.counters.requests + 1));
    Relabel(s, counted);
    LogLabels(counted, None, PaymentRequest(device, amount));
  }

  lemma FaultLabels(r: Snapshot, index: nat)
    requires Labelled(r) && index < |r.queue| && r.queue[index].uses > 0
    ensures Labelled(Log(r.(queue := Spend(r.queue, index)), None, TransportFault))
  {
    hide Labelled;
    var spent := r.(queue := Spend(r.queue, index));
    Relabel(r, spent);
    LogLabels(spent, None, TransportFault);
  }

  lemma StartLabels(s: Snapshot, device: string, amount: nat, merchant: Option<string>)
    requires Settled(s) && ClockRoom(s) && Labelled(s)
    ensures AllSteppable(s.operations) && Labelled(Start(s, device, amount, merchant).after)
  {
    SettledIsSteppable(s);
    assert QueueUsable(s.queue) && s.nowMs <= U64_MAX by { hide Start; }
    NextIsNew(s);
    hide Settled;
    hide Labelled;
    hide AllSteppable;
    RequestLabels(s, device, amount);
    StartMeans(s, device, amount, merchant);
    hide Start;
    hide Refusal;
    hide Requested;
    hide AdvanceTo;
    hide QueueUsable;
    hide FirstFor;
    hide Spend;
    hide Log;
    var r := Requested(s, device, amount);
    if Refusal(r, device, amount, merchant).None? {
      var index := FirstFor(r.queue, device).value;
      if r.queue[index].delivery.DisconnectBeforeAccept? {
        FaultLabels(r, index);
      } else {
        AdmittedHasScenario(r, device, amount, merchant);
        AcceptedLabels(r, device, amount);
        hide Accepted;
        AdvanceToLabels(Accepted(r, device, amount), r.nowMs);
      }
    }
  }

  lemma AdmittedHasScenario(r: Snapshot, device: string, amount: nat, merchant: Option<string>)
    requires QueueUsable(r.queue) && Refusal(r, device, amount, merchant).None?
    ensures device in r.devices && FirstFor(r.queue, device).Some?
  {
  }

  lemma NextIsNew(s: Snapshot)
    requires Settled(s)
    ensures NextId(s) !in s.operations
  {
    assert Identified(s.operations.Keys, s.generation, s.nextOperation);
    hide Settled;
    if NextId(s) in s.operations {
      var n :| 1 <= n < s.nextOperation && NextId(s) == Ids.Print(s.generation, n);
      Ids.PrintInjective(s.generation, n, s.generation, s.nextOperation);
    }
  }

  lemma ActLabels(s: Snapshot, id: string, input: Input)
    requires Settled(s) && Labelled(s)
    ensures Actionable(s.operations) && Labelled(Act(s, id, input).after)
  {
    SettledIsSteppable(s);
    ActMeans(s, id, input);
    hide Settled;
    hide Act;
    hide Permitted;
    hide AdvanceTo;
    hide Labelled;
    if id in s.operations && Permitted(s.operations[id], input).Some? {
      ActedIsATransition(s, id, input);
      var plugged := s.(devices := Acted(s, id, input).devices);
      Relabel(s, plugged);
      LogLabels(plugged, Some(id), InputReceived(input));
      var move := InputMove(s.operations[id], input, s.nowMs);
      TransitionLabels(Log(plugged, Some(id), InputReceived(input)), id, move.stage, move.error);
      hide Acted;
      AdvanceToLabels(Acted(s, id, input), s.nowMs);
    }
  }

  lemma CallLabels(s: Snapshot, c: Call)
    requires Settled(s) && Possible(s, c) && Labelled(s)
    ensures Labelled(Apply(s, c).after)
  {
    hide Settled;
    hide Start;
    hide Act;
    hide AdvanceTo;
    match c
    case StartCall(device, amount, merchant) => StartLabels(s, device, amount, merchant);
    case ActCall(id, input) => ActLabels(s, id, input);
    case AdvanceCall(delta) =>
      SettledIsSteppable(s);
      if s.nowMs + delta <= U64_MAX { AdvanceToLabels(s, s.nowMs + delta); }
    case _ =>
  }

  lemma {:induction false} RunLabels(s: Snapshot, calls: seq<Call>)
    requires Settled(s) && Legal(s, calls) && Labelled(s)
    ensures Labelled(Run(s, calls))
    decreases |calls|
  {
    hide Settled;
    hide Apply;
    hide Labelled;
    if calls != [] {
      ApplySettles(s, calls[0]);
      CallLabels(s, calls[0]);
      RunLabels(Apply(s, calls[0]).after, calls[1..]);
    }
  }

  /** In any run every journal entry about a payment names a payment that is there, under its device and its
      scenario, and no other entry names any. */
  lemma EntriesNameTheirPayment(epoch: Option<nat>, calls: seq<Call>, i: nat)
    requires Settled(Fresh(epoch, 1, 1)) && Legal(Fresh(epoch, 1, 1), calls)
    requires i < |Run(Fresh(epoch, 1, 1), calls).events|
    ensures var s := Run(Fresh(epoch, 1, 1), calls); Names(s.events[i], s.operations)
  {
    RunLabels(Fresh(epoch, 1, 1), calls);
    hide Run;
    hide Settled;
    hide Names;
  }
}
