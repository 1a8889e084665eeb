/** The engine's journal: it is complete (folding it rebuilds the operations and the counters) and
    it only grows, with consecutive cursors and a calendar that never runs backwards. */
module EngineJournal {
  import opened Prelude
  import opened EngineModel
  import opened EngineClock

  // ---------------------------------------------------------------- replay

  /** What a reader of the journal can know of an operation. */
  datatype Brief = Brief(stage: Stage, charged: bool, delivered: bool)

  datatype View = View(briefs: map<string, Brief>, counters: Counters)

  const NoView := View(map[], Counters(0, 0, 0, 0, 0))

  /** One journal entry, read without access to the engine. */
  function Read(v: View, e: Event): View {
    var c := v.counters;
    if e.kind.PaymentRequest? then v.(counters := c.(requests := c.requests + 1))
    else if e.operationId.None? then v
    else if e.kind.Started? then
      View(v.briefs[e.operationId.value := Brief(Connecting, false, false)], c.(accepted := c.accepted + 1))
    else if e.operationId.value !in v.briefs then v
    else
      var id, brief := e.operationId.value, v.briefs[e.operationId.value];
      match e.kind
      case Entered(stage) =>
        var charged := e.charged == Some(true);
        View(v.briefs[id := brief.(stage := stage, charged := charged)],
             c.(approvals := c.approvals + if charged && !brief.charged then 1 else 0,
                reversals := c.reversals + if brief.charged && !charged then 1 else 0))
      case ResponseDelivered =>
        View(v.briefs[id := brief.(delivered := true)], c.(delivered := c.delivered + 1))
      case _ => v
  }

  function Replay(events: seq<Event>): View {
    if events == [] then NoView
    else Read(Replay(events[..|events| - 1]), events[|events| - 1])
  }

  function BriefOf(op: Operation): Brief { Brief(op.stage, op.charged, op.responseDelivered) }

  ghost function Briefs(ops: map<string, Operation>): map<string, Brief> {
    map id | id in ops :: BriefOf(ops[id])
  }

  /** Folding the journal gives every operation's stage, charge and delivery, and all counters. */
  ghost predicate Complete(s: Snapshot) {
    Replay(s.events) == View(Briefs(s.operations), s.counters)
  }

  lemma ReplayLog(s: Snapshot, id: Option<string>, kind: EventKind)
    ensures Replay(Log(s, id, kind).events) == Read(Replay(s.events), Entry(s, id, kind))
  {
    var es := s.events + [Entry(s, id, kind)];
    assert es[..|es| - 1] == s.events;
  }

  /** The charge flag only moves on approval and on reversal of a charged operation. */
  lemma TransitionIsRead(s: Snapshot, id: string, stage: Stage, error: Option<ErrorId>)
    requires Complete(s) && id in s.operations
    requires stage.Approved? || stage.Reversed? || !s.operations[id].charged
    ensures Complete(Transition(s, id, stage, error))
  {
    var op := s.operations[id];
    var entered := Enter(op, stage, s.nowMs, error);
    var before := s.(operations := s.operations[id := entered],
                     counters := Transition(s, id, stage, error).counters);
    ReplayLog(before, Some(id), Entered(stage));
    assert Briefs(s.operations)[id := BriefOf(entered)] == Briefs(before.operations);
  }

  lemma RemarkIsRead(s: Snapshot, id: Option<string>, kind: EventKind)
    requires Complete(s)
    requires !kind.PaymentRequest? && !kind.Started? && !kind.Entered? && !kind.ResponseDelivered?
    ensures Complete(Log(s, id, kind))
  {
    ReplayLog(s, id, kind);
  }

  lemma RequestIsRead(s: Snapshot, device: string, amount: nat)
    requires Complete(s)
    ensures Complete(Requested(s, device, amount))
  {
    var counted := s.(counters := s.counters.(requests := s.counters.requests + 1));
    ReplayLog(counted, None, PaymentRequest(device, amount));
  }

  lemma AcceptanceIsRead(s: Snapshot, device: string, amount: nat)
    requires Complete(s)
    requires device in s.devices && FirstFor(s.queue, device).Some? && QueueUsable(s.queue)
    ensures Complete(Accepted(s, device, amount))
  {
    var index := FirstFor(s.queue, device).value;
    var op := NewOperation(s, device, amount, s.queue[index]);
    var before := s.(queue := Spend(s.queue, index), nextOperation := s.nextOperation + 1,
                     counters := s.counters.(accepted := s.counters.accepted + 1),
                     operations := s.operations[op.id := op]);
    ReplayLog(before, Some(op.id), Started);
    assert Briefs(s.operations)[op.id := BriefOf(op)] == Briefs(before.operations);
  }

  lemma DeliveryIsRead(s: Snapshot, id: string)
    requires Complete(s)
    ensures Complete(Deliver(s, id).after)
  {
    if Deliver(s, id).after != s {
      var op := s.operations[id].(responseDelivered := true);
      var before := s.(operations := s.operations[id := op],
                       counters := s.counters.(delivered := s.counters.delivered + 1));
      ReplayLog(before, Some(id), ResponseDelivered);
      assert Briefs(s.operations)[id := BriefOf(op)] == Briefs(before.operations);
    }
  }

  lemma ResetIsRead(s: Snapshot)
    ensures Complete(Reset(s))
  {
    var empty := Fresh(Stamp(s), s.generation + 1, s.nextEvent);
    assert Briefs(empty.operations) == map[];
    ReplayLog(empty, None, ResetTo(s.generation + 1));
  }

  ghost predicate ActiveUncharged(ops: map<string, Operation>) {
    forall id :: id in ops && !ops[id].stage.Terminal() ==> !ops[id].charged
  }

  lemma {:induction false} DrainIsRead(s: Snapshot, target: nat)
    requires AllSteppable(s.operations) && Complete(s) && ActiveUncharged(s.operations)
    ensures Complete(Drain(s, target))
    decreases RankSum(s.operations)
  {
    NextExists(s.operations, target);
    if id :| IsNext(s.operations, target, id) {
      DrainFires(s, target, id);
      FireLowersRankSum(s, id);
      FireIsRead(s, id);
      DrainIsRead(Fire(s, id), target);
    } else {
      DrainStops(s, target);
    }
  }

  lemma FireIsRead(s: Snapshot, id: string)
    requires id in s.operations && Due(s.operations[id]).Some? && Steppable(s.operations[id])
    requires Complete(s) && ActiveUncharged(s.operations)
    ensures Complete(Fire(s, id)) && ActiveUncharged(Fire(s, id).operations)
  {
    var moved := s.(nowMs := Max(Due(s.operations[id]).value, s.nowMs));
    var move := NextMove(moved.operations[id], moved.nowMs);
    TransitionIsRead(moved, id, move.stage, move.error);
  }

  // ---------------------------------------------------------------- growth

  function Calendar(epoch: Option<nat>, atMs: nat): Option<nat> {
    if epoch.None? then None else Some(SaturatingAdd(epoch.value, atMs))
  }

  /** `t` continues the journal of `s`: nothing lost, cursors consecutive, times in order. */
  ghost predicate Grows(s: Snapshot, t: Snapshot) {
    && t.generation == s.generation && t.epochUnixMs == s.epochUnixMs && s.nowMs <= t.nowMs
    && |s.events| <= |t.events| && t.events[..|s.events|] == s.events
    && t.nextEvent == s.nextEvent + |t.events| - |s.events|
    && (forall i :: |s.events| <= i < |t.events| ==>
          && t.events[i].cursor == s.nextEvent + (i - |s.events|)
          && t.events[i].generation == s.generation
          && s.nowMs <= t.events[i].atMs <= t.nowMs
          && t.events[i].unixMs == Calendar(s.epochUnixMs, t.events[i].atMs))
    && (forall i, j :: |s.events| <= i < j < |t.events| ==> t.events[i].atMs <= t.events[j].atMs)
  }

  lemma GrowsTransitive(s: Snapshot, t: Snapshot, u: Snapshot)
    requires Grows(s, t) && Grows(t, u)
    ensures Grows(s, u)
  {
    assert forall i :: |s.events| <= i < |t.events| ==> u.events[..|t.events|][i] == t.events[i];
    assert u.events[..|s.events|] == u.events[..|t.events|][..|s.events|];
  }

  /** An entry logged now, whatever else changes with it, continues the journal. */
  lemma LogGrows(s: Snapshot, t: Snapshot, id: Option<string>, kind: EventKind)
    requires t.generation == s.generation && t.epochUnixMs == s.epochUnixMs && s.nowMs <= t.nowMs
    requires t.events == s.events && t.nextEvent == s.nextEvent
    ensures Grows(s, Log(t, id, kind))
  {
  }

  lemma {:induction false} DrainGrows(s: Snapshot, target: nat)
    requires AllSteppable(s.operations)
    ensures Grows(s, Drain(s, target))
    ensures forall i :: |s.events| <= i < |Drain(s, target).events| ==> Drain(s, target).events[i].kind.Entered?
    decreases RankSum(s.operations)
  {
    NextExists(s.operations, target);
    if id :| IsNext(s.operations, target, id) {
      DrainFires(s, target, id);
      FireLowersRankSum(s, id);
      FireGrows(s, id);
      DrainGrows(Fire(s, id), target);
      var f, d := Fire(s, id), Drain(Fire(s, id), target);
      GrowsTransitive(s, f, d);
      assert d.events[|s.events|] == d.events[..|f.events|][|s.events|];
    } else {
      DrainStops(s, target);
    }
  }

  lemma FireGrows(s: Snapshot, id: string)
    requires id in s.operations && Due(s.operations[id]).Some? && Steppable(s.operations[id])
    ensures Grows(s, Fire(s, id)) && |Fire(s, id).events| == |s.events| + 1
    ensures Fire(s, id).events[|s.events|].kind.Entered?
  {
  }

  lemma AdvanceToGrows(s: Snapshot, target: nat)
    requires AllSteppable(s.operations) && s.nowMs <= target
    ensures Grows(s, AdvanceTo(s, target))
    ensures forall i :: |s.events| <= i < |AdvanceTo(s, target).events| ==> AdvanceTo(s, target).events[i].kind.Entered?
  {
    DrainGrows(s, target);
    DrainEnds(s, target);
    hide Drain;
  }
}
