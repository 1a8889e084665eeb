/** Time in the payment engine: the scheduler is insensitive to clock granularity, refines the
    independent simulation of each operation, and follows a closed-form timeline. */
module EngineClock {
  import opened Prelude
  import opened EngineModel
  import Ids = OperationIds

  // ---------------------------------------------------------------- the scheduler's choice

  /** Among operations that are due at all, one is least in (due time, id). */
  lemma {:induction false} LeastExists(ops: map<string, Operation>, ids: set<string>) returns (least: string)
    requires ids != {} && forall j :: j in ids ==> j in ops && Due(ops[j]).Some?
    ensures least in ids
    ensures forall j :: j in ids ==>
      Due(ops[least]).value < Due(ops[j]).value
      || (Due(ops[least]) == Due(ops[j]) && Ids.AtMost(least, j))
    decreases |ids|
  {
    var x :| x in ids;
    Ids.AtMostTotal(x, x);
    if ids == {x} {
      least := x;
    } else {
      var y := LeastExists(ops, ids - {x});
      Ids.AtMostTotal(x, y);
      var xFirst := Due(ops[x]).value < Due(ops[y]).value || (Due(ops[x]) == Due(ops[y]) && Ids.AtMost(x, y));
      least := if xFirst then x else y;
      forall j | j in ids
        ensures Due(ops[least]).value < Due(ops[j]).value
                || (Due(ops[least]) == Due(ops[j]) && Ids.AtMost(least, j))
      {
        if xFirst && j != x && Due(ops[x]) == Due(ops[j]) {
          Ids.AtMostTransitive(x, y, j);
        }
      }
    }
  }

  ghost predicate Quiet(ops: map<string, Operation>, target: nat) {
    forall id :: id in ops && Due(ops[id]).Some? ==> target < Due(ops[id]).value
  }

  /** The scheduler finds a next operation exactly when something is due. */
  lemma NextExists(ops: map<string, Operation>, target: nat)
    ensures (exists id :: IsNext(ops, target, id)) <==> !Quiet(ops, target)
  {
    if !Quiet(ops, target) {
      var x :| x in ops && Due(ops[x]).Some? && Due(ops[x]).value <= target;
      var ids := set id | id in ops && Due(ops[id]).Some?;
      assert x in ids;
      var least := LeastExists(ops, ids);
      assert IsNext(ops, target, least);
    }
  }

  /** The next operation is unique: the loop has no freedom. */
  lemma NextUnique(ops: map<string, Operation>, target: nat, other: nat, a: string, b: string)
    requires IsNext(ops, target, a) && IsNext(ops, other, b)
    ensures a == b
  {
    assert Due(ops[a]) == Due(ops[b]);
    Ids.AtMostAntisymmetric(a, b);
  }

  lemma DrainFires(s: Snapshot, target: nat, id: string)
    requires AllSteppable(s.operations) && IsNext(s.operations, target, id)
    ensures AllSteppable(Fire(s, id).operations)
    ensures Drain(s, target) == Drain(Fire(s, id), target)
  {
    var k :| IsNext(s.operations, target, k) && Drain(s, target) == Drain(Fire(s, k), target);
    NextUnique(s.operations, target, target, k, id);
  }

  lemma DrainStops(s: Snapshot, target: nat)
    requires AllSteppable(s.operations) && Quiet(s.operations, target)
    ensures Drain(s, target) == s
  {
    NextExists(s.operations, target);
  }

  /** When the loop ends nothing is due, the clock has not passed the target, and only operations,
      counters, journal and clock have changed. */
  lemma {:induction false} DrainEnds(s: Snapshot, target: nat)
    requires AllSteppable(s.operations) && s.nowMs <= target
    ensures var d := Drain(s, target);
      && AllSteppable(d.operations) && Quiet(d.operations, target)
      && s.nowMs <= d.nowMs <= target && d.operations.Keys == s.operations.Keys
      && d == s.(nowMs := d.nowMs, operations := d.operations, events := d.events,
                 counters := d.counters, nextEvent := d.nextEvent)
    decreases RankSum(s.operations)
  {
    NextExists(s.operations, target);
    if id :| IsNext(s.operations, target, id) {
      DrainFires(s, target, id);
      FireLowersRankSum(s, id);
      DrainEnds(Fire(s, id), target);
    } else {
      DrainStops(s, target);
    }
  }

  // ---------------------------------------------------------------- clock granularity

  /** Stopping the clock at an intermediate instant changes nothing at all. */
  lemma {:induction false} AdvanceSplits(s: Snapshot, middle: nat, target: nat)
    requires AllSteppable(s.operations) && s.nowMs <= middle <= target
    ensures AllSteppable(AdvanceTo(s, middle).operations)
    ensures AdvanceTo(AdvanceTo(s, middle), target) == AdvanceTo(s, target)
    decreases RankSum(s.operations)
  {
    DrainEnds(s, middle);
    NextExists(s.operations, middle);
    if id :| IsNext(s.operations, middle, id) {
      DrainFires(s, middle, id);
      DrainFires(s, target, id);
      FireLowersRankSum(s, id);
      AdvanceSplits(Fire(s, id), middle, target);
    } else {
      DrainStops(s, middle);
      var paused := s.(nowMs := middle);
      NextExists(s.operations, target);
      if id :| IsNext(s.operations, target, id) {
        DrainFires(s, target, id);
        DrainFires(paused, target, id);
        assert Fire(paused, id) == Fire(s, id);
      } else {
        DrainStops(s, target);
        DrainStops(paused, target);
      }
    }
  }

  /** `advance(a)` then `advance(b)` is `advance(a + b)`: operations, counters, journal and clock. */
  lemma GranularityUnobservable(s: Snapshot, a: nat, b: nat)
    requires AllSteppable(s.operations) && s.nowMs + a + b <= U64_MAX
    ensures AllSteppable(Advance(s, a).after.operations)
    ensures Advance(Advance(s, a).after, b) == Advance(s, a + b)
  {
    hide Drain;
    AdvanceSplits(s, s.nowMs + a, s.nowMs + a + b);
  }

  function Total(ticks: seq<nat>): nat {
    if ticks == [] then 0 else ticks[0] + Total(ticks[1..])
  }

  /** A run of clock ticks, stopping at the first that overflows. */
  ghost function Ticks(s: Snapshot, ticks: seq<nat>): Answer
    requires AllSteppable(s.operations)
    decreases |ticks|
  {
    if ticks == [] then Answer(s, None)
    else
      var one := Advance(s, ticks[0]);
      if one.fault.Some? then one else Ticks(one.after, ticks[1..])
  }

  lemma AdvanceLeavesQuiet(s: Snapshot, delta: nat)
    requires AllSteppable(s.operations) && s.nowMs + delta <= U64_MAX
    ensures Advance(s, delta).fault.None?
    ensures var t := Advance(s, delta).after; t.nowMs == s.nowMs + delta && Quiet(t.operations, t.nowMs)
  {
    hide Drain;
    hide Quiet;
    hide AllSteppable;
    DrainEnds(s, s.nowMs + delta);
  }

  lemma NothingDue(s: Snapshot)
    requires AllSteppable(s.operations) && s.nowMs <= U64_MAX && Quiet(s.operations, s.nowMs)
    ensures Advance(s, 0) == Answer(s, None)
  {
    hide Drain;
    hide AllSteppable;
    DrainStops(s, s.nowMs);
    hide Quiet;
  }

  /** Any partition of a duration into ticks gives one whole state: from every state by any tick at all,
      and by no tick where nothing is due, as between public calls. */
  lemma {:induction false} AnyPartitionOfTime(s: Snapshot, ticks: seq<nat>)
    requires AllSteppable(s.operations) && s.nowMs + Total(ticks) <= U64_MAX
    requires ticks != [] || Quiet(s.operations, s.nowMs)
    ensures Ticks(s, ticks) == Advance(s, Total(ticks))
    decreases |ticks|
  {
    hide Advance;
    hide Quiet;
    hide AllSteppable;
    if ticks == [] {
      NothingDue(s);
    } else {
      AdvanceLeavesQuiet(s, ticks[0]);
      GranularityUnobservable(s, ticks[0], Total(ticks[1..]));
      AnyPartitionOfTime(Advance(s, ticks[0]).after, ticks[1..]);
    }
  }

  // ---------------------------------------------------------------- independent simulation

  /** One operation run by itself up to `target`, each step taken exactly when it falls due. */
  ghost function Alone(op: Operation, target: nat): Operation
    requires Steppable(op)
    decreases op.stage.Rank()
  {
    if Due(op).Some? && Due(op).value <= target then
      StepLowersRank(op, Due(op).value);
      Alone(StepOperation(op, Due(op).value), target)
    else op
  }

  ghost function EachAlone(ops: map<string, Operation>, target: nat): map<string, Operation>
    requires AllSteppable(ops)
  {
    map id | id in ops :: Alone(ops[id], target)
  }

  /** Nothing is overdue. */
  ghost predicate OnTime(s: Snapshot) {
    forall id :: id in s.operations && Due(s.operations[id]).Some? ==> s.nowMs <= Due(s.operations[id]).value
  }

  /** The operation is not charged yet, but is by `target`. */
  ghost predicate Charges(op: Operation, target: nat)
    requires Steppable(op)
  {
    !op.charged && Alone(op, target).charged
  }

  /** Operations that the simulation charges. */
  ghost function NewlyCharged(ops: map<string, Operation>, target: nat): set<string>
    requires AllSteppable(ops)
  {
    set id | id in ops && Charges(ops[id], target)
  }

  lemma SteppedIsLater(op: Operation, now: nat)
    requires !op.stage.Terminal() && Steppable(op) && now <= U64_MAX
    requires Due(op).Some? && now == Due(op).value
    ensures var next := StepOperation(op, now); Due(next).Some? ==> now <= Due(next).value
  {
  }

  lemma {:induction false} AloneKeepsCharge(op: Operation, target: nat)
    requires Steppable(op)
    ensures op.charged ==> Alone(op, target).charged
    ensures Alone(op, target) == op.(stage := Alone(op, target).stage,
      stageStartedMs := Alone(op, target).stageStartedMs, completedMs := Alone(op, target).completedMs,
      charged := Alone(op, target).charged, errorId := Alone(op, target).errorId)
    decreases op.stage.Rank()
  {
    if Due(op).Some? && Due(op).value <= target {
      StepLowersRank(op, Due(op).value);
      AloneKeepsCharge(StepOperation(op, Due(op).value), target);
    }
  }

  lemma FireKeepsPace(s: Snapshot, target: nat, id: string)
    requires AllSteppable(s.operations) && OnTime(s) && target <= U64_MAX
    requires Earliest(s.operations, target, id)
    ensures AllSteppable(Fire(s, id).operations) && OnTime(Fire(s, id))
    ensures Fire(s, id).nowMs <= target
    ensures EachAlone(Fire(s, id).operations, target) == EachAlone(s.operations, target)
  {
    var op := s.operations[id];
    SteppedIsLater(op, Due(op).value);
    assert Fire(s, id).operations == s.operations[id := StepOperation(op, Due(op).value)];
  }

  lemma StepMayCharge(op: Operation, target: nat)
    requires Steppable(op) && Due(op).Some? && Due(op).value <= target
    ensures var next := StepOperation(op, Due(op).value);
      && !(Charges(next, target) && next.charged && !op.charged)
      && (Charges(op, target) <==> Charges(next, target) || (next.charged && !op.charged))
  {
    AloneKeepsCharge(StepOperation(op, Due(op).value), target);
  }

  lemma NewlyChargedAfter(ops: map<string, Operation>, id: string, next: Operation, target: nat)
    requires AllSteppable(ops) && id in ops && Steppable(next)
    requires Due(ops[id]).Some? && Due(ops[id]).value <= target && next == StepOperation(ops[id], Due(ops[id]).value)
    ensures |NewlyCharged(ops, target)| == |NewlyCharged(ops[id := next], target)|
                                         + if next.charged && !ops[id].charged then 1 else 0
  {
    var later := ops[id := next];
    StepMayCharge(ops[id], target);
    assert Steppable(ops[id]);
    hide Charges;
    hide Due;
    hide StepOperation;
    hide Steppable;
    hide AllSteppable;
    forall k | k != id ensures k in NewlyCharged(ops, target) <==> k in NewlyCharged(later, target) {
      assert k in ops ==> later[k] == ops[k];
    }
    OneMore(NewlyCharged(ops, target), NewlyCharged(later, target), id, next.charged && !ops[id].charged);
  }

  lemma OneMore(before: set<string>, after: set<string>, id: string, more: bool)
    requires forall k :: k != id ==> (k in before <==> k in after)
    requires if more then id in before && id !in after else (id in before <==> id in after)
    ensures |before| == |after| + if more then 1 else 0
  {
    if more {
      assert before == after + {id};
    } else {
      assert before == after;
    }
  }

  lemma FireCountsCharge(s: Snapshot, target: nat, id: string)
    requires AllSteppable(s.operations) && OnTime(s) && target <= U64_MAX
    requires Earliest(s.operations, target, id)
    ensures AllSteppable(Fire(s, id).operations)
    ensures Fire(s, id).counters.approvals + |NewlyCharged(Fire(s, id).operations, target)|
         == s.counters.approvals + |NewlyCharged(s.operations, target)|
    ensures Fire(s, id).counters == s.counters.(approvals := Fire(s, id).counters.approvals)
  {
    hide NewlyCharged;
    FireKeepsPace(s, target, id);
    var op := s.operations[id];
    NewlyChargedAfter(s.operations, id, StepOperation(op, Due(op).value), target);
    assert Fire(s, id).operations == s.operations[id := StepOperation(op, Due(op).value)];
  }

  /** A schedule: any choice of which earliest-due operation to fire, until nothing is due. */
  ghost predicate Schedule(s: Snapshot, target: nat, picks: seq<string>, end: Snapshot)
    requires AllSteppable(s.operations)
    decreases |picks|
  {
    if picks == [] then end == s && Quiet(s.operations, target)
    else
      && Earliest(s.operations, target, picks[0])
      && AllSteppable(Fire(s, picks[0]).operations)
      && Schedule(Fire(s, picks[0]), target, picks[1..], end)
  }

  lemma QuietAlone(ops: map<string, Operation>, target: nat)
    requires AllSteppable(ops) && Quiet(ops, target)
    ensures EachAlone(ops, target) == ops && NewlyCharged(ops, target) == {}
  {
  }

  /** Whatever the tie-break, the interleaving leaves each operation as if it had run alone, and
      raises the approvals by the number of operations that charge. */
  lemma {:induction false} InterleavingIsIndependent(s: Snapshot, target: nat, picks: seq<string>, end: Snapshot)
    requires AllSteppable(s.operations) && OnTime(s) && s.nowMs <= target <= U64_MAX
    requires Schedule(s, target, picks, end)
    ensures end.operations == EachAlone(s.operations, target)
    ensures end.counters == s.counters.(approvals := s.counters.approvals + |NewlyCharged(s.operations, target)|)
    ensures s.nowMs <= end.nowMs <= target
    decreases |picks|
  {
    if picks == [] {
      QuietAlone(s.operations, target);
    } else {
      FireKeepsPace(s, target, picks[0]);
      FireCountsCharge(s, target, picks[0]);
      InterleavingIsIndependent(Fire(s, picks[0]), target, picks[1..], end);
    }
  }

  /** No operation is fired more often than its stage allows: five times at most. */
  lemma {:induction false} FewTransitions(s: Snapshot, target: nat, picks: seq<string>, end: Snapshot, id: string)
    requires AllSteppable(s.operations) && id in s.operations
    requires Schedule(s, target, picks, end)
    ensures id in end.operations
    ensures multiset(picks)[id] + end.operations[id].stage.Rank() <= s.operations[id].stage.Rank() <= 5
    decreases |picks|
  {
    if picks != [] {
      assert Steppable(s.operations[picks[0]]) && Due(s.operations[picks[0]]).Some?;
      hide AllSteppable;
      hide Due;
      hide Fire;
      hide Steppable;
      hide Earliest;
      FiredRank(s, picks[0], id);
      FewTransitions(Fire(s, picks[0]), target, picks[1..], end, id);
      hide Schedule;
      CountOfFirst(picks, id);
    }
  }

  lemma CountOfFirst(picks: seq<string>, id: string)
    requires picks != []
    ensures multiset(picks)[id] == multiset(picks[1..])[id] + if picks[0] == id then 1 else 0
  {
    assert picks == [picks[0]] + picks[1..];
  }

  lemma FiredRank(s: Snapshot, pick: string, id: string)
    requires pick in s.operations && Due(s.operations[pick]).Some? && Steppable(s.operations[pick]) && id in s.operations
    ensures id in Fire(s, pick).operations
    ensures Fire(s, pick).operations[id].stage.Rank() + (if pick == id then 1 else 0) <= s.operations[id].stage.Rank()
  {
    StepLowersRank(s.operations[pick], Max(Due(s.operations[pick]).value, s.nowMs));
  }

  /** The engine's own loop is one of those schedules. */
  lemma {:induction false} DrainIsASchedule(s: Snapshot, target: nat) returns (picks: seq<string>)
    requires AllSteppable(s.operations)
    ensures Schedule(s, target, picks, Drain(s, target))
    ensures |picks| <= RankSum(s.operations)
    decreases RankSum(s.operations)
  {
    NextExists(s.operations, target);
    if id :| IsNext(s.operations, target, id) {
      DrainFires(s, target, id);
      FireLowersRankSum(s, id);
      var rest := DrainIsASchedule(Fire(s, id), target);
      picks := [id] + rest;
      assert picks[1..] == rest;
    } else {
      DrainStops(s, target);
      picks := [];
    }
  }

  /** `advance` leaves every operation as if it had been run alone to the target. */
  lemma AdvanceRefinesIndependentRuns(s: Snapshot, target: nat)
    requires AllSteppable(s.operations) && OnTime(s) && s.nowMs <= target <= U64_MAX
    ensures AdvanceTo(s, target).operations == EachAlone(s.operations, target)
    ensures AdvanceTo(s, target).counters
         == s.counters.(approvals := s.counters.approvals + |NewlyCharged(s.operations, target)|)
  {
    var picks := DrainIsASchedule(s, target);
    InterleavingIsIndependent(s, target, picks, Drain(s, target));
  }

  // ---------------------------------------------------------------- closed-form timeline

  function Delay(t: Timing, stage: Stage): nat {
    match stage
    case Connecting => t.connectMs
    case AwaitingCard => t.cardMs
    case AwaitingCustomer => t.customerMs
    case Authorizing => t.authorizeMs
    case AwaitingConfirmation => t.confirmMs
    case _ => 0
  }

  /** The delays spent before `stage` is entered. */
  function Before(t: Timing, stage: Stage): nat {
    match stage
    case AwaitingCard => t.connectMs
    case AwaitingCustomer => t.connectMs + t.cardMs
    case Authorizing => t.connectMs + t.cardMs + t.customerMs
    case AwaitingConfirmation => t.connectMs + t.cardMs + t.customerMs + t.authorizeMs
    case _ => 0
  }

  /** The stage whose end decides the outcome. */
  function DecidingStage(sc: Scenario): Stage {
    match sc.outcome
    case Error => sc.failureStage
    case Decline => Authorizing
    case Approve => if sc.requireConfirmation then AwaitingConfirmation else Authorizing
  }

  function Verdict(sc: Scenario): Move
    requires sc.outcome.Error? ==> sc.errorId.Some?
  {
    match sc.outcome
    case Approve => Move(Approved, None)
    case Decline => Move(Declined, None)
    case Error =>
      Move(match sc.errorId.value
           case CustomerCancelledError => Cancelled
           case TerminalTimeout => TimedOut
           case _ => Failed,
           sc.errorId)
  }

  /** When the outcome falls, counted from the start. */
  function DecidedAfter(sc: Scenario): nat {
    Before(sc.timing, DecidingStage(sc)) + Delay(sc.timing, DecidingStage(sc))
  }

  predicate Untouched(sc: Scenario) { sc.Valid() && sc.mode.Automatic? && !sc.manualBank }

  /** The operation as it stands `elapsed` after its start, in closed form. */
  function Timeline(op: Operation, elapsed: nat): Operation
    requires Untouched(op.scenario)
  {
    var sc, t := op.scenario, op.scenario.timing;
    var decided := DecidedAfter(sc);
    if decided < t.timeoutMs && decided <= elapsed then
      Enter(op, Verdict(sc).stage, op.startedMs + decided, Verdict(sc).error)
    else if t.timeoutMs <= elapsed then
      Enter(op, TimedOut, op.startedMs + t.timeoutMs, Some(TerminalTimeout))
    else
      var stage :=
        if elapsed < Before(t, AwaitingCard) then Connecting
        else if elapsed < Before(t, AwaitingCustomer) then AwaitingCard
        else if elapsed < Before(t, Authorizing) then AwaitingCustomer
        else if elapsed < Before(t, AwaitingConfirmation) then Authorizing
        else AwaitingConfirmation;
      if stage.Connecting? then op else Enter(op, stage, op.startedMs + Before(t, stage), None)
  }

  /** The operation on entering `stage`, no decision having fallen yet. */
  predicate EnteredAt(op: Operation, stage: Stage) {
    && Untouched(op.scenario) && op.stage == stage && !stage.Terminal()
    && stage.Rank() >= DecidingStage(op.scenario).Rank()
    && op.stageStartedMs == op.startedMs + Before(op.scenario.timing, stage)
    && op.deadlineMs == op.startedMs + op.scenario.timing.timeoutMs <= U64_MAX
    && Before(op.scenario.timing, stage) < op.scenario.timing.timeoutMs
    && !op.charged && op.errorId.None? && op.completedMs.None?
  }

  /** The operation as it was on starting. */
  function AtStart(op: Operation): Operation {
    op.(stage := Connecting, stageStartedMs := op.startedMs)
  }

  function StageAfter(stage: Stage): Stage {
    match stage
    case Connecting => AwaitingCard
    case AwaitingCard => AwaitingCustomer
    case AwaitingCustomer => Authorizing
    case _ => AwaitingConfirmation
  }

  lemma WaitingOnTimeline(op: Operation, target: nat)
    requires EnteredAt(op, op.stage)
    requires op.stageStartedMs <= target <= U64_MAX && target < Due(op).value
    ensures Timeline(AtStart(op), target - op.startedMs) == op
  {
    NotDecidedYet(op, target);
    hide DecidedAfter;
    hide DecidingStage;
    hide Due;
  }

  /** Before it is due an operation is within its stage, and its outcome and timeout lie ahead. */
  lemma NotDecidedYet(op: Operation, target: nat)
    requires EnteredAt(op, op.stage)
    requires op.stageStartedMs <= target <= U64_MAX && target < Due(op).value
    ensures var elapsed, t := target - op.startedMs, op.scenario.timing;
      && Before(t, op.stage) <= elapsed < Before(t, op.stage) + Delay(t, op.stage)
      && elapsed < t.timeoutMs && elapsed < DecidedAfter(op.scenario)
  {
  }

  lemma DecidingOnTimeline(op: Operation, target: nat)
    requires EnteredAt(op, op.stage)
    requires Due(op).value <= target <= U64_MAX
    requires op.stage == DecidingStage(op.scenario) || Due(op).value == op.deadlineMs
    ensures StepOperation(op, Due(op).value).stage.Terminal()
    ensures StepOperation(op, Due(op).value) == Timeline(AtStart(op), target - op.startedMs)
  {
    hide Timeline;
    if Due(op).value == op.deadlineMs {
      TimeoutOnTimeline(op, target);
    } else {
      VerdictOnTimeline(op, target);
    }
  }

  /** A stage left at the deadline: the outcome would fall no sooner than the timeout. */
  lemma TimeoutOnTimeline(op: Operation, target: nat)
    requires EnteredAt(op, op.stage) && Due(op).value == op.deadlineMs <= target <= U64_MAX
    ensures DecidedAfter(op.scenario) >= op.scenario.timing.timeoutMs
    ensures StepOperation(op, op.deadlineMs) == Timeline(AtStart(op), target - op.startedMs)
  {
    DecidedNoSooner(op);
    assert NextMove(op, op.deadlineMs) == Move(TimedOut, Some(TerminalTimeout));
    hide DecidedAfter;
  }

  lemma DecidedNoSooner(op: Operation)
    requires EnteredAt(op, op.stage) && Due(op).value == op.deadlineMs
    ensures DecidedAfter(op.scenario) >= op.scenario.timing.timeoutMs
  {
  }

  /** The deciding stage left before the deadline. */
  lemma VerdictOnTimeline(op: Operation, target: nat)
    requires EnteredAt(op, op.stage) && op.stage == DecidingStage(op.scenario)
    requires Due(op).value < op.deadlineMs && Due(op).value <= target <= U64_MAX
    ensures StepOperation(op, Due(op).value).stage.Terminal()
    ensures StepOperation(op, Due(op).value) == Timeline(AtStart(op), target - op.startedMs)
  {
    assert Due(op).value == op.startedMs + DecidedAfter(op.scenario);
    assert NextMove(op, Due(op).value) == Verdict(op.scenario);
    hide Due;
    hide DecidedAfter;
  }

  lemma PassingOnTimeline(op: Operation)
    requires EnteredAt(op, op.stage)
    requires op.stage != DecidingStage(op.scenario) && Due(op).value < op.deadlineMs
    ensures var next := StepOperation(op, Due(op).value);
      EnteredAt(next, StageAfter(op.stage)) && next.stageStartedMs == Due(op).value && AtStart(next) == AtStart(op)
  {
  }

  lemma {:induction false} TimelineFrom(op: Operation, target: nat)
    requires EnteredAt(op, op.stage)
    requires op.stageStartedMs <= target <= U64_MAX
    ensures Alone(op, target) == Timeline(AtStart(op), target - op.startedMs)
    decreases op.stage.Rank()
  {
    hide Timeline;
    var at := Due(op).value;
    if target < at {
      WaitingOnTimeline(op, target);
    } else {
      var next := StepOperation(op, at);
      StepLowersRank(op, at);
      if op.stage == DecidingStage(op.scenario) || at == op.deadlineMs {
        DecidingOnTimeline(op, target);
      } else {
        PassingOnTimeline(op);
        TimelineFrom(next, target);
      }
    }
  }

  /** An untouched automatic operation reaches its outcome exactly when the delays through the
      deciding stage have passed if that is before the timeout; otherwise, and on a tie, it times
      out exactly at the timeout. */
  lemma ClosedFormTimeline(op: Operation, target: nat)
    requires Untouched(op.scenario) && op.stage.Connecting? && op.stageStartedMs == op.startedMs
    requires op.deadlineMs == op.startedMs + op.scenario.timing.timeoutMs <= U64_MAX
    requires !op.charged && op.errorId.None? && op.completedMs.None?
    requires op.startedMs <= target <= U64_MAX
    ensures Alone(op, target) == Timeline(op, target - op.startedMs)
  {
    TimelineFrom(op, target);
  }
}
