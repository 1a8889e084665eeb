/** The SSI terminal: one purchase at a time, timed through scripted phases. Its clock only matters
    when a request arrives: how often it is polled cannot be observed. */
module SsiTerminal {
  import opened Prelude

  // ---------------------------------------------------------------- data

  datatype Method =
    | Purchase | PingDevice | GetStatus | GetLastResult | Interrupt
    | GetMerchantList | GetMerchantListDetailed | GetTerminalInfo | GetResultByUid

  /** S00 is idle; S01..S08 are the phases a scenario may script. */
  datatype Status = S00 | S01 | S02 | S03 | S04 | S05 | S06 | S07 | S08

  /** Protocol error codes E00..E22, or none. */
  datatype Code = NoError | E(number: nat)

  datatype Phase = Phase(status: Status, ms: nat)

  datatype Scenario = Scenario(
    id: string, phases: seq<Phase>, errorCode: Code, responseCode: string, transactionResult: string,
    requestErrors: map<Method, Code>, resultFields: map<string, string>)

  const DEFAULT := Scenario(
    "approved", [Phase(S02, 100), Phase(S04, 100)], NoError, "0000", "APPROVED-ONLINE", map[], map[])

  /** A request field: absent, a string, or a value of another type. */
  datatype Field = Missing | Text(text: string) | Other

  datatype Params =
    | NoParams
    | NotAnObject
    | Params(transAmount: Field, transCurrency: Field, merchantId: Field, transactionUid: Field)

  datatype Request = Request(name: Option<string>, step: Field, params: Params)

  /** A financial result record; the fixed and wall-clock fields are the `stamp` of its purchase. */
  datatype Record = Record(
    transAmount: string, merchantId: string, authCode: string, responseCode: string, transactionResult: string,
    resultFields: map<string, string>, transactionUid: Field, stamp: int)

  datatype Operation = Operation(start: int, scenario: Scenario, result: Record, status: Option<Status>)

  datatype Finished = Finished(params: Record, code: Code, scenario: Scenario)

  datatype Body =
    | NoBody | EmptyBody | StatusBody(status: Status) | MerchantBody | MerchantDetailBody | InfoBody
    | RecordBody(record: Record)

  datatype Reply = Reply(name: string, code: Code, body: Body)

  datatype Terminal = Terminal(generation: nat, armed: Scenario, active: Option<Operation>, last: Option<Finished>)

  function MethodOf(name: string): Option<Method> {
    if name == "Purchase" then Some(Purchase)
    else if name == "PingDevice" then Some(PingDevice)
    else if name == "GetStatus" then Some(GetStatus)
    else if name == "GetLastResult" then Some(GetLastResult)
    else if name == "Interrupt" then Some(Interrupt)
    else if name == "GetMerchantList" then Some(GetMerchantList)
    else if name == "GetMerchantListDetailed" then Some(GetMerchantListDetailed)
    else if name == "GetTerminalInfo" then Some(GetTerminalInfo)
    else if name == "GetResultByUid" then Some(GetResultByUid)
    else None
  }

  // ---------------------------------------------------------------- time

  /** The phase an operation is in after `elapsed`, or None once all phases have passed. */
  function PhaseAt(phases: seq<Phase>, elapsed: int): Option<Status> {
    if phases == [] then None
    else if elapsed < phases[0].ms then Some(phases[0].status)
    else PhaseAt(phases[1..], elapsed - phases[0].ms)
  }

  function Duration(phases: seq<Phase>): nat {
    if phases == [] then 0 else phases[0].ms + Duration(phases[1..])
  }

  /** An operation is over exactly when its phases have used up their time. */
  lemma {:induction false} OverWhenPhasesSpent(phases: seq<Phase>, elapsed: int)
    requires elapsed >= 0
    ensures PhaseAt(phases, elapsed).None? <==> Duration(phases) <= elapsed
  {
    if phases != [] && elapsed >= phases[0].ms {
      OverWhenPhasesSpent(phases[1..], elapsed - phases[0].ms);
    }
  }

  lemma {:induction false} OverStaysOver(phases: seq<Phase>, elapsed: int, later: int)
    requires elapsed <= later && PhaseAt(phases, elapsed).None?
    ensures PhaseAt(phases, later).None?
  {
    if phases != [] {
      OverStaysOver(phases[1..], elapsed - phases[0].ms, later - phases[0].ms);
    }
  }

  function Complete(t: Terminal, code: Code): Terminal {
    if t.active.None? then t
    else
      var op := t.active.value;
      t.(last := Some(Finished(op.result, code, op.scenario)), active := None)
  }

  /** The status at `now`. */
  function StatusAt(t: Terminal, now: int): Status {
    if t.active.None? then S00
    else
      var phase := PhaseAt(t.active.value.scenario.phases, now - t.active.value.start);
      if phase.Some? then phase.value else S00
  }

  /** What a tick leaves: the phase cached, or the operation completed. */
  function Ticked(t: Terminal, now: int): Terminal {
    if t.active.None? then t
    else
      var op := t.active.value;
      var phase := PhaseAt(op.scenario.phases, now - op.start);
      if phase.Some? then t.(active := Some(op.(status := phase)))
      else Complete(t, op.scenario.errorCode)
  }

  // ---------------------------------------------------------------- requests

  predicate AllDigits(s: string) {
    s != "" && forall i :: 0 <= i < |s| ==> '0' <= s[i] <= '9'
  }

  function Amount(s: string): nat
    requires forall i :: 0 <= i < |s| ==> '0' <= s[i] <= '9'
  {
    if s == "" then 0 else Amount(s[..|s| - 1]) * 10 + (s[|s| - 1] as int - '0' as int)
  }

  /** Why a purchase request is refused on an idle terminal, if it is. */
  function PurchaseFault(r: Request): Code {
    if !r.params.Params? || r.params.transAmount.Missing? || r.params.transCurrency.Missing? || r.params.merchantId.Missing?
    then E(4)
    else if !r.params.transAmount.Text? || !AllDigits(r.params.transAmount.text) || r.params.transCurrency != Text("980")
         || !r.params.merchantId.Text? || !(r.step.Missing? || r.step == Text("1"))
    then E(9)
    else if r.params.merchantId.text != "TEST-MERCHANT" then E(7)
    else if Amount(r.params.transAmount.text) < 1 || Amount(r.params.transAmount.text) > 999_999_999 then E(19)
    else NoError
  }

  /** An interrupted operation keeps its record but not the bank's answer. */
  function Cleared(op: Operation): Operation {
    op.(result := op.result.(responseCode := "", transactionResult := ""))
  }

  datatype Response = Response(after: Terminal, reply: Reply)

  function AuthCode(errorCode: Code): string { if errorCode.NoError? then "123456" else "" }

  function Accept(t: Terminal, r: Request, start: int, stamp: int): Terminal
    requires PurchaseFault(r).NoError?
  {
    var s := t.armed;
    var result := Record(
      r.params.transAmount.text, r.params.merchantId.text, AuthCode(s.errorCode), s.responseCode, s.transactionResult,
      s.resultFields, r.params.transactionUid, stamp);
    t.(last := None, active := Some(Operation(start, s, result, None)))
  }

  /** The scenario that governs a request: the running one, or the armed one. */
  function Governing(t: Terminal): Scenario {
    if t.active.Some? then t.active.value.scenario else t.armed
  }

  /** A request to a terminal that has just ticked and found `status`. `start` is the clock when a
      purchase is accepted. */
  function Serve(t: Terminal, r: Request, status: Status, start: int, stamp: int): Response {
    if r.name.None? then Response(t, Reply("Unknown", E(4), NoBody))
    else
      var name := r.name.value;
      if MethodOf(name).None? then Response(t, Reply(name, E(5), NoBody))
      else if r.params.NotAnObject? then Response(t, Reply(name, E(9), NoBody))
      else
        var known := MethodOf(name).value;
        var s := Governing(t);
        if known in s.requestErrors then Response(t, Reply(name, s.requestErrors[known], NoBody))
        else
          match known
          case PingDevice => Response(t, Reply(name, NoError, EmptyBody))
          case GetStatus => Response(t, Reply(name, NoError, StatusBody(status)))
          case GetMerchantList => Response(t, Reply(name, NoError, MerchantBody))
          case GetMerchantListDetailed => Response(t, Reply(name, NoError, MerchantDetailBody))
          case GetTerminalInfo => Response(t, Reply(name, NoError, InfoBody))
          case Interrupt =>
            if t.active.None? || !(status.S02? || status.S03? || status.S08?) then Response(t, Reply(name, E(8), NoBody))
            else
              Response(Complete(t.(active := Some(Cleared(t.active.value))), E(12)), Reply(name, NoError, EmptyBody))
          case GetLastResult =>
            if t.active.Some? then Response(t, Reply(name, E(6), NoBody))
            else if t.last.Some? then Response(t, Reply(name, t.last.value.code, RecordBody(t.last.value.params)))
            else Response(t, Reply(name, NoError, EmptyBody))
          case GetResultByUid =>
            if !r.params.Params? || !r.params.transactionUid.Text? then Response(t, Reply(name, E(4), NoBody))
            else if t.active.Some? && t.active.value.result.transactionUid == r.params.transactionUid then
              Response(t, Reply(name, E(22), NoBody))
            else if t.last.Some? && t.last.value.params.transactionUid == r.params.transactionUid then
              Response(t, Reply(name, t.last.value.code, RecordBody(t.last.value.params)))
            else Response(t, Reply(name, E(20), NoBody))
          case Purchase =>
            if t.active.Some? then Response(t, Reply(name, E(6), NoBody))
            else if !PurchaseFault(r).NoError? then Response(t, Reply(name, PurchaseFault(r), NoBody))
            else Response(Accept(t, r, start, stamp), Reply(name, NoError, EmptyBody))
  }

  /** A request at `now`: the terminal ticks first. */
  function Handle(t: Terminal, r: Request, now: int, start: int, stamp: int): Response {
    Serve(Ticked(t, now), r, StatusAt(t, now), start, stamp)
  }

  function Arm(t: Terminal, s: Scenario): Terminal { t.(armed := s) }

  function Reset(t: Terminal, preserveResult: bool): Terminal {
    Terminal(t.generation + 1, DEFAULT, None, if preserveResult then t.last else None)
  }

  // ---------------------------------------------------------------- the object

  class TerminalObject {
    var generation: nat
    var armed: Scenario
    var active: Option<Operation>
    var last: Option<Finished>

    function State(): Terminal
      reads this
    {
      Terminal(generation, armed, active, last)
    }

    constructor ()
      ensures State() == Terminal(1, DEFAULT, None, None)
    {
      generation, armed, active, last := 1, DEFAULT, None, None;
    }

    method ResetTo(preserveResult: bool)
      modifies this
      ensures State() == Reset(old(State()), preserveResult)
    {
      generation := generation + 1;
      armed := DEFAULT;
      active := None;
      if !preserveResult { last := None; }
    }

    method ArmWith(s: Scenario)
      modifies this`armed
      ensures State() == Arm(old(State()), s)
    {
      armed := s;
    }

    method CompleteWith(code: Code)
      modifies this`active, this`last
      ensures State() == Complete(old(State()), code)
    {
      if active.None? { return; }
      var op := active.value;
      last := Some(Finished(op.result, code, op.scenario));
      active := None;
    }

    /** The loop takes each phase's time off the elapsed time until one is still running. */
    method Tick(now: int) returns (status: Status)
      modifies this`active, this`last
      ensures State() == Ticked(old(State()), now) && status == StatusAt(old(State()), now)
    {
      if active.None? { return S00; }
      var op := active.value;
      var elapsed := now - op.start;
      var i := 0;
      while i < |op.scenario.phases|
        invariant i <= |op.scenario.phases|
        invariant PhaseAt(op.scenario.phases, now - op.start) == PhaseAt(op.scenario.phases[i..], elapsed)
      {
        var phase := op.scenario.phases[i];
        if elapsed < phase.ms {
          if op.status != Some(phase.status) {
            active := Some(op.(status := Some(phase.status)));
          }
          return phase.status;
        }
        elapsed := elapsed - phase.ms;
        i := i + 1;
      }
      CompleteWith(op.scenario.errorCode);
      status := S00;
    }

    method Snapshot(now: int) returns (status: Status, snapshot: Terminal)
      modifies this`active, this`last
      ensures State() == Ticked(old(State()), now) && snapshot == State() && status == StatusAt(old(State()), now)
    {
      status := Tick(now);
      snapshot := State();
    }

    method HandleRequest(r: Request, now: int, start: int, stamp: int) returns (reply: Reply)
      modifies this`active, this`last
      ensures Response(State(), reply) == Handle(old(State()), r, now, start, stamp)
    {
      var status := Tick(now);
      if r.name.None? { return Reply("Unknown", E(4), NoBody); }
      var name := r.name.value;
      var known := MethodOf(name);
      if known.None? { return Reply(name, E(5), NoBody); }
      if r.params.NotAnObject? { return Reply(name, E(9), NoBody); }
      var s := if active.Some? then active.value.scenario else armed;
      if known.value in s.requestErrors { return Reply(name, s.requestErrors[known.value], NoBody); }
      match known.value
      case PingDevice => reply := Reply(name, NoError, EmptyBody);
      case GetStatus => reply := Reply(name, NoError, StatusBody(status));
      case GetMerchantList => reply := Reply(name, NoError, MerchantBody);
      case GetMerchantListDetailed => reply := Reply(name, NoError, MerchantDetailBody);
      case GetTerminalInfo => reply := Reply(name, NoError, InfoBody);
      case Interrupt =>
        if active.None? || !(status.S02? || status.S03? || status.S08?) { return Reply(name, E(8), NoBody); }
        var op := active.value;
        active := Some(op.(result := op.result.(responseCode := "", transactionResult := "")));
        CompleteWith(E(12));
        reply := Reply(name, NoError, EmptyBody);
      case GetLastResult =>
        if active.Some? { return Reply(name, E(6), NoBody); }
        reply := if last.Some? then Reply(name, last.value.code, RecordBody(last.value.params))
                 else Reply(name, NoError, EmptyBody);
      case GetResultByUid =>
        if !r.params.Params? || !r.params.transactionUid.Text? { return Reply(name, E(4), NoBody); }
        if active.Some? && active.value.result.transactionUid == r.params.transactionUid {
          return Reply(name, E(22), NoBody);
        }
        reply := if last.Some? && last.value.params.transactionUid == r.params.transactionUid
                 then Reply(name, last.value.code, RecordBody(last.value.params))
                 else Reply(name, E(20), NoBody);
      case Purchase =>
        if active.Some? { return Reply(name, E(6), NoBody); }
        var fault := PurchaseFault(r);
        if !fault.NoError? { return Reply(name, fault, NoBody); }
        last := None;
        active := Some(Operation(start, armed,
          Record(r.params.transAmount.text, r.params.merchantId.text, AuthCode(armed.errorCode),
                 armed.responseCode, armed.transactionResult, armed.resultFields, r.params.transactionUid, stamp), None));
        reply := Reply(name, NoError, EmptyBody);
    }
  }

  // ---------------------------------------------------------------- polling is unobservable

  /** The terminal as any request at `now` would find it, the cached phase disregarded. */
  function Settled(t: Terminal, now: int): Terminal {
    var ticked := Ticked(t, now);
    if ticked.active.None? then ticked else ticked.(active := Some(ticked.active.value.(status := None)))
  }

  /** Nothing can tell the two terminals apart from `now` on. */
  predicate Alike(a: Terminal, b: Terminal, now: int) { Settled(a, now) == Settled(b, now) }

  datatype Call =
    | TickCall
    | StateCall
    | HandleCall(request: Request, start: int, stamp: int)
    | ArmCall(scenario: Scenario)
    | ResetCall(preserveResult: bool)

  datatype Step = Step(call: Call, now: int)

  /** What the caller of a step is shown: a reply, or the visible state. */
  datatype Shown = Nothing | Replied(reply: Reply) | Visible(status: Status, terminal: Terminal)

  datatype Outcome = Outcome(after: Terminal, shown: Shown)

  function Take(t: Terminal, s: Step): Outcome {
    match s.call
    case TickCall => Outcome(Ticked(t, s.now), Nothing)
    case StateCall => Outcome(Ticked(t, s.now), Visible(StatusAt(t, s.now), Settled(t, s.now)))
    case HandleCall(r, start, stamp) =>
      var h := Handle(t, r, s.now, start, stamp);
      Outcome(h.after, Replied(h.reply))
    case ArmCall(scenario) => Outcome(Arm(t, scenario), Nothing)
    case ResetCall(preserve) => Outcome(Reset(t, preserve), Nothing)
  }

  /** The calls that only look: tick, state, GetStatus and PingDevice. */
  predicate Polls(c: Call) {
    c.TickCall? || c.StateCall?
    || (c.HandleCall? && (c.request.name == Some("GetStatus") || c.request.name == Some("PingDevice")))
  }

  lemma TickAgain(t: Terminal, now: int, later: int)
    requires now <= later
    ensures Settled(Ticked(t, now), later) == Settled(t, later)
    ensures StatusAt(Ticked(t, now), later) == StatusAt(t, later)
  {
    if t.active.Some? && PhaseAt(t.active.value.scenario.phases, now - t.active.value.start).None? {
      var op := t.active.value;
      OverStaysOver(op.scenario.phases, now - op.start, later - op.start);
    }
  }

  lemma SettleAgain(t: Terminal, now: int, later: int)
    requires now <= later
    ensures Settled(Settled(t, now), later) == Settled(t, later)
    ensures StatusAt(Settled(t, now), later) == StatusAt(t, later)
  {
    TickAgain(t, now, later);
  }

  lemma AlikeLater(a: Terminal, b: Terminal, now: int, later: int)
    requires Alike(a, b, now) && now <= later
    ensures Alike(a, b, later) && StatusAt(a, later) == StatusAt(b, later)
  {
    SettleAgain(a, now, later);
    SettleAgain(b, now, later);
  }

  /** A poll leaves a terminal that nothing can tell from the one before. */
  lemma PollIsInvisible(t: Terminal, s: Step)
    requires Polls(s.call)
    ensures Alike(Take(t, s).after, t, s.now)
  {
    assert Take(t, s).after == Ticked(t, s.now);
    TickAgain(t, s.now, s.now);
  }

  predicate Discards(c: Call) { c == ResetCall(true) }

  /** Indistinguishable terminals answer every call alike and stay indistinguishable. */
  lemma AlikeStep(a: Terminal, b: Terminal, s: Step)
    requires Alike(a, b, s.now) && !Discards(s.call)
    requires s.call.HandleCall? ==> s.now <= s.call.start
    ensures Take(a, s).shown == Take(b, s).shown
    ensures var after := if s.call.HandleCall? then s.call.start else s.now;
      Alike(Take(a, s).after, Take(b, s).after, after)
  {
    AlikeLater(a, b, s.now, s.now);
    match s.call
    case TickCall => TickAgain(a, s.now, s.now); TickAgain(b, s.now, s.now);
    case StateCall => TickAgain(a, s.now, s.now); TickAgain(b, s.now, s.now);
    case HandleCall(r, start, stamp) => AlikeServe(Ticked(a, s.now), Ticked(b, s.now), r, StatusAt(a, s.now), start, stamp);
    case ArmCall(scenario) =>
    case ResetCall(_) =>
  }

  /** Two ticked terminals that differ only in the cached phase. */
  predicate SameButPhase(a: Terminal, b: Terminal) {
    && a.generation == b.generation && a.armed == b.armed && a.last == b.last
    && (a.active.Some? <==> b.active.Some?)
    && (a.active.Some? ==> a.active.value.(status := None) == b.active.value.(status := None))
  }

  lemma SameButPhaseIsAlike(a: Terminal, b: Terminal, now: int)
    requires SameButPhase(a, b)
    ensures Alike(a, b, now)
  {
  }

  lemma AlikeServe(a: Terminal, b: Terminal, r: Request, status: Status, start: int, stamp: int)
    requires SameButPhase(a, b)
    ensures Serve(a, r, status, start, stamp).reply == Serve(b, r, status, start, stamp).reply
    ensures SameButPhase(Serve(a, r, status, start, stamp).after, Serve(b, r, status, start, stamp).after)
    ensures Alike(Serve(a, r, status, start, stamp).after, Serve(b, r, status, start, stamp).after, start)
  {
    SameButPhaseIsAlike(Serve(a, r, status, start, stamp).after, Serve(b, r, status, start, stamp).after, start);
  }

  /** The clock never goes back along a run that begins at `now`. */
  predicate Ordered(run: seq<Step>, now: int)
    decreases |run|
  {
    run == []
    || (now <= run[0].now
        && (run[0].call.HandleCall? ==> run[0].now <= run[0].call.start)
        && Ordered(run[1..], Finish(run[0])))
  }

  function Finish(s: Step): int { if s.call.HandleCall? then s.call.start else s.now }

  predicate NeverDiscards(run: seq<Step>) { forall i :: 0 <= i < |run| ==> !Discards(run[i].call) }

  /** The running operation has used up its phases and nobody has noticed. */
  predicate Spent(t: Terminal, now: int) {
    t.active.Some? && PhaseAt(t.active.value.scenario.phases, now - t.active.value.start).None?
  }

  /** No result-preserving reset of the run meets such an operation. */
  predicate KeepsResults(t: Terminal, run: seq<Step>)
    decreases |run|
  {
    run == []
    || (!(Discards(run[0].call) && Spent(t, run[0].now)) && KeepsResults(Take(t, run[0]).after, run[1..]))
  }

  lemma {:induction false} NeverDiscardsKeeps(t: Terminal, run: seq<Step>)
    requires NeverDiscards(run)
    ensures KeepsResults(t, run)
    decreases |run|
  {
    hide Take;
    if run != [] {
      assert NeverDiscards(run[1..]) by { assert forall i :: 0 <= i < |run[1..]| ==> run[1..][i] == run[i + 1]; }
      NeverDiscardsKeeps(Take(t, run[0]).after, run[1..]);
    }
  }

  /** The same run with every poll taken out. */
  function WithoutPolls(run: seq<Step>): seq<Step> {
    if run == [] then []
    else (if Polls(run[0].call) then [] else [run[0]]) + WithoutPolls(run[1..])
  }

  /** What the calls other than polls are shown along a run. */
  function ShownTo(t: Terminal, run: seq<Step>): seq<Shown>
    decreases |run|
  {
    if run == [] then []
    else (if Polls(run[0].call) then [] else [Take(t, run[0]).shown]) + ShownTo(Take(t, run[0]).after, run[1..])
  }

  function End(t: Terminal, run: seq<Step>): Terminal
    decreases |run|
  {
    if run == [] then t else End(Take(t, run[0]).after, run[1..])
  }

  function LastMoment(run: seq<Step>, now: int): int
    decreases |run|
  {
    if run == [] then now else LastMoment(run[1..], Finish(run[0]))
  }

  /** A terminal that is polled more is idle whenever the other is. */
  predicate NoLater(a: Terminal, b: Terminal) { b.active.None? ==> a.active.None? }

  /** Indistinguishable terminals stay so through a preserving reset that loses no result. */
  lemma AlikeReset(a: Terminal, b: Terminal, now: int)
    requires Alike(a, b, now) && NoLater(a, b) && !Spent(b, now)
    ensures Alike(Reset(a, true), Reset(b, true), now)
  {
  }

  /** A call made to both keeps the more polled terminal no later. */
  lemma NoLaterStep(a: Terminal, b: Terminal, s: Step)
    requires Alike(a, b, s.now) && NoLater(a, b)
    ensures NoLater(Take(a, s).after, Take(b, s).after)
    ensures Polls(s.call) ==> NoLater(Take(a, s).after, b)
  {
    if s.call.HandleCall? {
      NoLaterServe(Ticked(a, s.now), Ticked(b, s.now), s.call.request, StatusAt(a, s.now), s.call.start, s.call.stamp);
      hide Serve;
    }
  }

  lemma NoLaterServe(a: Terminal, b: Terminal, r: Request, status: Status, start: int, stamp: int)
    requires SameButPhase(a, b)
    ensures NoLater(Serve(a, r, status, start, stamp).after, Serve(b, r, status, start, stamp).after)
    ensures r.name == Some("GetStatus") || r.name == Some("PingDevice") ==> Serve(a, r, status, start, stamp).after == a
  {
  }

  /** Taking every poll out of a run changes no reply and no later visible state, as long as no
      result-preserving reset of the run without polls meets an operation that is over. */
  lemma {:induction false} PollingUnobservable(a: Terminal, b: Terminal, run: seq<Step>, now: int)
    requires Alike(a, b, now) && Ordered(run, now)
    requires KeepsResults(b, WithoutPolls(run)) && (NoLater(a, b) || NeverDiscards(run))
    ensures ShownTo(a, run) == ShownTo(b, WithoutPolls(run))
    ensures Alike(End(a, run), End(b, WithoutPolls(run)), LastMoment(run, now))
    decreases |run|
  {
    hide Take;
    hide Alike;
    hide Spent;
    hide NoLater;
    if run != [] {
      var s, rest := run[0], run[1..];
      assert NeverDiscards(run) ==> NeverDiscards(rest) by { assert forall i :: 0 <= i < |rest| ==> rest[i] == run[i + 1]; }
      AlikeLater(a, b, now, s.now);
      if NoLater(a, b) { NoLaterStep(a, b, s); }
      if Polls(s.call) {
        PollIsInvisible(a, s);
        AlikeTogether(Take(a, s).after, a, b, s.now);
        AlikeLater(Take(a, s).after, b, s.now, Finish(s));
        assert WithoutPolls(run) == [] + WithoutPolls(rest) == WithoutPolls(rest);
        PollingUnobservable(Take(a, s).after, b, rest, Finish(s));
      } else {
        assert WithoutPolls(run) == [s] + WithoutPolls(rest);
        assert WithoutPolls(run)[1..] == WithoutPolls(rest);
        if Discards(s.call) {
          assert !NeverDiscards(run) && NoLater(a, b);
          AlikeReset(a, b, s.now);
          TakeReset(a, s);
          TakeReset(b, s);
        } else {
          AlikeStep(a, b, s);
        }
        PollingUnobservable(Take(a, s).after, Take(b, s).after, rest, Finish(s));
      }
    }
  }

  lemma TakeReset(t: Terminal, s: Step)
    requires Discards(s.call)
    ensures Take(t, s) == Outcome(Reset(t, true), Nothing)
  {
  }

  lemma AlikeTogether(a: Terminal, b: Terminal, c: Terminal, now: int)
    requires Alike(a, b, now) && Alike(b, c, now)
    ensures Alike(a, c, now)
  {
  }

  /** Any two runs that differ only in their polls show every other caller the same. */
  lemma AnyPollingRateAgrees(t: Terminal, one: seq<Step>, two: seq<Step>, now: int)
    requires WithoutPolls(one) == WithoutPolls(two) && KeepsResults(t, WithoutPolls(one))
    requires Ordered(one, now) && Ordered(two, now)
    ensures ShownTo(t, one) == ShownTo(t, two)
    ensures var last := if LastMoment(one, now) <= LastMoment(two, now) then LastMoment(two, now) else LastMoment(one, now);
      Alike(End(t, one), End(t, two), last)
  {
    PollingUnobservable(t, t, one, now);
    PollingUnobservable(t, t, two, now);
    hide KeepsResults;
    var last := if LastMoment(one, now) <= LastMoment(two, now) then LastMoment(two, now) else LastMoment(one, now);
    AlikeLater(End(t, one), End(t, WithoutPolls(one)), LastMoment(one, now), last);
    AlikeLater(End(t, two), End(t, WithoutPolls(two)), LastMoment(two, now), last);
  }

  // ---------------------------------------------------------------- where polling does show

  const INITIAL := Terminal(1, DEFAULT, None, None)

  /** An operation in progress excludes a stored result. */
  predicate Consistent(t: Terminal) { t.active.Some? ==> t.last.None? }

  lemma ConsistentStep(t: Terminal, s: Step)
    requires Consistent(t)
    ensures Consistent(Take(t, s).after)
  {
  }

  /** Every terminal that can be reached is so, after any calls whatever. */
  lemma {:induction false} RunningClearsResult(t: Terminal, run: seq<Step>)
    requires Consistent(t)
    ensures Consistent(End(t, run))
    decreases |run|
  {
    hide Take;
    hide Consistent;
    if run != [] {
      ConsistentStep(t, run[0]);
      RunningClearsResult(Take(t, run[0]).after, run[1..]);
    }
  }

  /** In any reachable state a reset that keeps the result tells whether a poll came before it, exactly
      when the running operation had already used up its phases. */
  lemma PreservingResetSeesPolls(run: seq<Step>, now: int)
    ensures var t := End(INITIAL, run); Reset(Ticked(t, now), true) == Reset(t, true) <==> !Spent(t, now)
  {
    RunningClearsResult(INITIAL, run);
    hide End;
  }

  lemma {:induction false} RunsInTurn(t: Terminal, a: seq<Step>, b: seq<Step>, now: int)
    ensures End(t, a + b) == End(End(t, a), b)
    ensures WithoutPolls(a + b) == WithoutPolls(a) + WithoutPolls(b)
    ensures Ordered(a + b, now) <==> Ordered(a, now) && Ordered(b, LastMoment(a, now))
    ensures LastMoment(a + b, now) == LastMoment(b, LastMoment(a, now))
    ensures KeepsResults(t, a + b) <==> KeepsResults(t, a) && KeepsResults(End(t, a), b)
    decreases |a|
  {
    hide Take;
    hide Spent;
    if a == [] {
      assert a + b == b && WithoutPolls(a) + WithoutPolls(b) == WithoutPolls(b);
    } else {
      RunsInTurn(Take(t, a[0]).after, a[1..], b, Finish(a[0]));
      assert (a + b)[0] == a[0] && (a + b)[1..] == a[1..] + b;
      var own := if Polls(a[0].call) then [] else [a[0]];
      assert own + (WithoutPolls(a[1..]) + WithoutPolls(b)) == (own + WithoutPolls(a[1..])) + WithoutPolls(b);
    }
  }

  /** Wherever the run is stopped, polls along the way have left no trace. */
  ghost predicate PollsAreHarmless(t: Terminal, run: seq<Step>, now: int) {
    forall polled, k: nat :: k <= |run| && Ordered(polled, now) && WithoutPolls(polled) == run[..k] ==>
      Alike(End(t, polled), End(t, run[..k]), LastMoment(polled, now))
  }

  /** The preserving reset at `k` meets an operation that is over: a tick just before it makes a
      difference. */
  lemma TickBeforeResetShows(t: Terminal, run: seq<Step>, now: int, k: nat)
    requires Consistent(t) && Ordered(run, now) && WithoutPolls(run) == run
    requires k < |run| && Discards(run[k].call) && Spent(End(t, run[..k]), run[k].now)
    ensures !PollsAreHarmless(t, run, now)
  {
    hide End;
    hide WithoutPolls;
    hide Ordered;
    hide KeepsResults;
    hide LastMoment;
    hide Spent;
    hide Consistent;
    hide Alike;
    var past, reset, tick := run[..k], run[k], Step(TickCall, run[k].now);
    var upTo := past + [reset];
    assert run[..k + 1] == upTo && run == upTo + run[k + 1..];
    RunsInTurn(t, upTo, run[k + 1..], now);
    RunsInTurn(t, past, [reset], now);
    var polled := past + [tick, reset];
    RunsInTurn(t, past, [tick, reset], now);
    PollFreePrefix(run, k);
    RunningClearsResult(t, past);
    TickThenReset(End(t, past), tick, reset, LastMoment(past, now));
    LostResultShows(End(t, past), reset.now, LastMoment(polled, now));
    assert WithoutPolls(polled) == upTo && Ordered(polled, now);
    assert !Alike(End(t, polled), End(t, run[..k + 1]), LastMoment(polled, now));
  }

  lemma TickThenReset(u: Terminal, tick: Step, reset: Step, now: int)
    requires tick == Step(TickCall, reset.now) && Discards(reset.call)
    ensures End(u, [reset]) == Reset(u, true) && End(u, [tick, reset]) == Reset(Ticked(u, reset.now), true)
    ensures WithoutPolls([tick, reset]) == [reset]
    ensures Ordered([reset], now) ==> Ordered([tick, reset], now)
  {
    assert [tick, reset][1..] == [reset] && [reset][1..] == [];
    assert forall t: Terminal :: End(t, [reset]) == Reset(t, true);
    assert Take(u, tick).after == Ticked(u, reset.now);
    assert End(u, [tick, reset]) == End(Ticked(u, reset.now), [reset]);
    assert WithoutPolls([reset]) == [reset];
    assert WithoutPolls([tick, reset]) == [] + WithoutPolls([reset]);
  }

  lemma LostResultShows(u: Terminal, now: int, later: int)
    requires Consistent(u) && Spent(u, now)
    ensures !Alike(Reset(Ticked(u, now), true), Reset(u, true), later)
  {
  }

  lemma {:induction false} PollFreePrefix(run: seq<Step>, k: nat)
    requires WithoutPolls(run) == run && k <= |run|
    ensures WithoutPolls(run[..k]) == run[..k]
    decreases |run|
  {
    if k > 0 {
      NoMoreWithoutPolls(run[1..]);
      assert WithoutPolls(run) == (if Polls(run[0].call) then [] else [run[0]]) + WithoutPolls(run[1..]);
      assert !Polls(run[0].call) && run == [run[0]] + run[1..];
      assert WithoutPolls(run[1..]) == run[1..];
      PollFreePrefix(run[1..], k - 1);
      assert run[..k][1..] == run[1..][..k - 1] && run[..k] == [run[0]] + run[1..][..k - 1];
    }
  }

  lemma {:induction false} NoMoreWithoutPolls(run: seq<Step>)
    ensures |WithoutPolls(run)| <= |run|
  {
    if run != [] { NoMoreWithoutPolls(run[1..]); }
  }

  /** The first preserving reset that meets an operation that is over. */
  lemma {:induction false} WhereResultsAreLost(t: Terminal, run: seq<Step>) returns (k: nat)
    requires !KeepsResults(t, run)
    ensures k < |run| && Discards(run[k].call) && Spent(End(t, run[..k]), run[k].now)
    decreases |run|
  {
    hide Take;
    hide Spent;
    if Discards(run[0].call) && Spent(t, run[0].now) {
      k := 0;
    } else {
      var j := WhereResultsAreLost(Take(t, run[0]).after, run[1..]);
      k := j + 1;
      assert run[..k][1..] == run[1..][..j];
    }
  }

  /** From any consistent terminal, the reachable ones among them, polls along a run leave no trace if and
      only if none of its preserving resets meets an operation that is over. */
  lemma PollsAreHarmlessExactly(t: Terminal, run: seq<Step>, now: int)
    requires Consistent(t) && Ordered(run, now) && WithoutPolls(run) == run
    ensures PollsAreHarmless(t, run, now) <==> KeepsResults(t, run)
  {
    if KeepsResults(t, run) {
      forall polled, k: nat | k <= |run| && Ordered(polled, now) && WithoutPolls(polled) == run[..k]
        ensures Alike(End(t, polled), End(t, run[..k]), LastMoment(polled, now))
      {
        assert run == run[..k] + run[k..];
        RunsInTurn(t, run[..k], run[k..], now);
        PollingUnobservable(t, t, polled, now);
      }
    } else {
      var k := WhereResultsAreLost(t, run);
      TickBeforeResetShows(t, run, now, k);
    }
  }

  /** A purchase the default scenario approves after 200 ms. */
  const PURCHASE := Request(Some("Purchase"), Missing, Params(Text("100"), Text("980"), Text("TEST-MERCHANT"), Missing))

  /** The approved result survives a preserving reset 200 ms later if the terminal was ticked, and is lost
      if it was not. */
  lemma ApprovalLostUnlessPolled()
    ensures var bought := Take(INITIAL, Step(HandleCall(PURCHASE, 0, 0), 0));
      && bought.shown == Replied(Reply("Purchase", NoError, EmptyBody)) && bought.after.active.Some?
      && Reset(bought.after, true).last == None
      && var kept := Reset(Ticked(bought.after, 200), true).last;
         kept.Some? && kept.value.code.NoError? && kept.value.params.transactionResult == "APPROVED-ONLINE"
  {
    assert "100"[..2] == "10" && "10"[..1] == "1" && "1"[..0] == "";
    assert Amount("1") == 1;
    assert Amount("10") == 10;
    assert Amount("100") == 100;
    assert PurchaseFault(PURCHASE).NoError?;
    assert MethodOf("Purchase") == Some(Purchase);
    var phases := DEFAULT.phases;
    assert phases[1..] == [Phase(S04, 100)] && phases[1..][1..] == [];
    assert PhaseAt([Phase(S04, 100)], 100) == PhaseAt([], 0) == None;
    assert PhaseAt(phases, 200) == PhaseAt([Phase(S04, 100)], 100);
  }
}
